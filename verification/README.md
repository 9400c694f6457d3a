# Verified model of the SRE agent and orchestrator

This project models the stateful protocols of the repository, and a few transformations that carry
whole-input promises, in Dafny, and proves what they keep over every run. `dafny verify
dfyconfig.toml` checks all of it.

| area | files |
|---|---|
| HTTP server lifecycle: Start, Shutdown and watcher threads over one lock, a one-token start slot, generations, one-shot channels and request trackers | `Lifecycle`, `LifecycleSafety`, `LifecycleTheorems`, `LifecycleDrain`, `LifecycleReadiness`, `LifecycleErrors`, `LifecycleFields`, `LifecycleWitnesses`, `LifecycleServer`, `RequestTracker` |
| Action authorization: propose, approve, claim, receipt, cancel and reconcile over a versioned store with an outbox | `Execution`, `ExecutionRuns`, `ExecutionTheorems`, `ExecutionAnswers`, `ExecutionStamps`, `ExecutionService` |
| Integration registry: activation with rollback, partial deactivation and close against a registrar that may fail | `Registry`, `RegistryTheorems`, `RegistryAnswers`, `RegistryService` |
| Bounded diagnosis: the rubric, the three-round engine, and the orchestrator's judgement of an agent's result | `Rubric`, `Rounds`, `RoundsTheorems`, `RoundsAnswers` |
| Canonical JSON and sealing of immutable items | `Ordering`, `CanonicalJson`, `CanonicalTheorems`, `Sealing` |
| Paired evaluation | `Evaluation` |
| Encrypted file cache | `FileCache`, `CacheTheorems`, `CacheWitnesses` |
| Legacy agent: argument rewriting and notification suppression | `Arguments`, `Notifications` |
| Shared | `Wrappers`, `Cardinality`, `Clock`, `Strings`, `Observations`, `Telemetry` |

How it is built:

- Code that changes fields or variables step by step is a `class` or a method with loops. Its
  contract ties the new state and the result to a function on values, and the lemmas are about that
  function.
- Concurrent code is a state machine. A step is one critical section, or one statement outside the
  lock that another thread can observe. Threads have explicit program counters. A run is any
  interleaving, with any number of threads.
- Clocks, contexts, the network, the provider, the registrar and the file system are parameters that
  may answer anything. Randomness is a fresh value supplied from outside.

Properties one might expect that the code does not have, each with a witness and its exact condition:

- A serving server may be unready: a late completion of an older generation stores `false`
  (`LifecycleWitnesses.ServingMayBeUnready`, `LifecycleReadiness.ReadyLastsExactly`).
- A shutdown scoped to a generation may cancel a successor that is only pending
  (`LifecycleWitnesses.WatcherMayCancelSuccessor`, `LifecycleReadiness.WatcherCancelsExactly`).
- A Shutdown that waited for a generation may return without that generation's error
  (`LifecycleWitnesses.WaiterMayMissItsError`, `LifecycleReadiness.WaiterReturnsOwnErrorExactly`).
- A Claim's checks happen before approval expiry and all deadlines, but its `SubmittedAt` stamp is taken
  later and may reach them (`ExecutionStamps.StampMayPassTheDeadline`, `StampedInTimeExactly`).
- Set may be refused for the entry limit while every entry is expired
  (`CacheTheorems.LimitMayRefuseTooSoon`, `RefusedTooSoonExactly`).
- Get may report corrupt, and remove, what Set has just accepted: an endpoint such as `f / /` changes with
  every normalization, and text that is not valid changes when it is decoded
  (`CacheWitnesses.SetMayBeLost`, `TextMayBeLost`, `CacheTheorems.CorruptExactly`, `NeverCorruptExactly`).
- A Register that succeeds while a Close is under way is lost (`RegistryTheorems.RegisterMayBeLost`,
  `SurvivesCloseExactly`).
- Rewriting `--playbook-enabled <bool>` never changes a flag, but may change the configuration path
  (`Arguments.PathCanChange`, `RewritingKeepsPathExactly`).
- Two targets may share a notification key (`Notifications.SlashesMayCollide`, `CollidesExactly`).

The `not same generation` branches of Start, on the other hand, cannot be taken
(`LifecycleTheorems.GenerationPinned`, `NoForeignGeneration`).

## Model

| member | source | states |
|---|---|---|
| `LifecycleServer.Server.constructor` | internal/legacyserver/server.go:255-353 | a new server has no generation, nothing pending or started, nothing closed, and one start-slot token |
| `LifecycleServer.Server.CloseChannel` | internal/legacyserver/server.go:614-628 | closing a one-shot channel records it as closed; a second close would be recorded as a panic, an absent channel is skipped |
| `LifecycleServer.Server.Request` | internal/legacyserver/server.go:368-377 | the first critical section of Start: refused when started or pending, otherwise a startup of this Start becomes the pending one |
| `LifecycleServer.Server.EnsureSlot` | internal/legacyserver/server.go:593-608 | the start slot exists afterwards, with its token when it was just made |
| `LifecycleServer.Server.ClaimNext` | internal/legacyserver/server.go:389-419 | the claiming critical section: already started, cancelled, or the next generation is claimed with its startup channel closed |
| `LifecycleServer.Server.OpenGeneration` | internal/legacyserver/server.go:400-419 | exactly which fields a new generation resets and to what |
| `LifecycleServer.Server.FinishPending` | internal/legacyserver/server.go:614-628 | the pending startup is gone and its channel closed; a startup that was already claimed is left alone |
| `LifecycleServer.Server.Complete` | internal/legacyserver/server.go:630-658 | a completion of the current generation stops the server and closes its done channel once; of any other generation, or a second one, nothing changes |
| `LifecycleServer.Server.DropServer` | internal/legacyserver/server.go:638-650 | exactly the fields a completion resets |
| `LifecycleServer.Server.PublishServer` | internal/legacyserver/server.go:467-485 | publishing happens only in the own generation, with no shutdown requested and no cancellation; otherwise the Start goes to its completion |
| `LifecycleServer.Server.BeginServing` | internal/legacyserver/server.go:495-512 | `serveStarted` is set under the same three conditions |
| `LifecycleServer.Server.HandOver` | internal/legacyserver/server.go:521-556 | readiness and the handoff to Serve are one step, taken only by the Start that still owns the published server |
| `LifecycleServer.Server.BeginShutdown` | internal/legacyserver/server.go:941-990 | the locked prefix of a shutdown: foreign generation, pending startup, repeated shutdown, nothing to stop, or a shutdown begun, each with its next step; closing MCP cannot fail (internal/legacyserver/mcp.go:169-189 returns nil on every path) |
| `LifecycleServer.Server.RecordError` | internal/legacyserver/server.go:998-1004 | a failed HTTP shutdown records its error only for the still incomplete current generation |
| `LifecycleTheorems.StepKeepsInv` | internal/legacyserver/server.go:355-678 | every step of every Start, Shutdown and watcher, in any interleaving, keeps the lifecycle invariant |
| `LifecycleTheorems.RunKeepsInv` | internal/legacyserver/server.go:355-678 | the invariant holds in every state of every run |
| `LifecycleTheorems.RunIsLater` | internal/legacyserver/server.go:355-678 | generations only grow, closed channels stay closed and claims are never undone between any two states of a run |
| `LifecycleTheorems.OneHolder` | internal/legacyserver/server.go:593-612 | the start-slot token is held by at most one Start |
| `LifecycleTheorems.GenerationPinned` | internal/legacyserver/server.go:382-419 | from the claim of generation g until that Start returns the server's generation is g, the token is out, and that Start alone holds it |
| `LifecycleTheorems.NoForeignGeneration` | internal/legacyserver/server.go:467-572 | so every branch for a foreign generation is dead: a Start gives the slot back only after a completion of its own generation, and at the handoff it serves exactly when no shutdown or cancellation came |
| `LifecycleTheorems.ClosesOnce` | internal/legacyserver/server.go:614-658 | no startup or shutdown channel is closed twice in any run |
| `LifecycleTheorems.ReturnsAfterClosing` | internal/legacyserver/server.go:389-591 | a Start that claimed a generation returns only after that generation's done channel is closed, and one that made a startup channel only after that is closed |
| `LifecycleTheorems.ReleaseNeverBlocks` | internal/legacyserver/server.go:610-612 | putting the token back never blocks |
| `LifecycleTheorems.WaitersAnswered` | internal/legacyserver/server.go:660-678 | whoever waits for a channel waits for one that is closed or owned by a Start that has not returned |
| `LifecycleTheorems.NoWaiterLeftBehind` | internal/legacyserver/server.go:961-1024 | once every Start has returned no Shutdown that waits for a channel is blocked |
| `LifecycleTheorems.SeenStartupNeverClaims` | internal/legacyserver/server.go:954-960 | a startup that a Shutdown saw pending never claims a generation, ever after |
| `LifecycleTheorems.ShutdownReturnsComplete` | internal/legacyserver/server.go:941-1012 | every Shutdown that returns without giving up, the first or a repeated one, has seen closed the channel it waited for, and with the current generation's channel the server is stopped |
| `LifecycleTheorems.ShutdownErrorKept` | internal/legacyserver/server.go:630-658 | within a generation a recorded error is never lost, and once the generation is complete its error is final; which error that is, `LifecycleErrors.CompletionRecords` says |
| `LifecycleErrors.RunHasOrigins` | internal/legacyserver/server.go:556-591 | an error on its way to a completion is the one this Start's own Serve returned, looked at earlier in the run |
| `LifecycleErrors.CompletionRecords` | internal/legacyserver/server.go:556-658 | over every run: when Serve returned e, the completion of that generation records e, except after a regular close, or a closed listener once a shutdown was requested, when what was recorded before stays |
| `LifecycleErrors.UnservedCompletesQuietly` | internal/legacyserver/server.go:467-556 | a Start that was never handed to Serve completes its generation without an error of its own |
| `LifecycleErrors.ShutdownReturnsItsError` | internal/legacyserver/server.go:941-975 | a Shutdown that enters a complete generation and returns, without giving up, before the next claim returns exactly that generation's error |
| `LifecycleErrors.EndIsReturned` | internal/legacyserver/server.go:630-678 | whatever a generation ended with is what every later Shutdown of it returns |
| `LifecycleErrors.ServeErrorIsReturned` | internal/legacyserver/server.go:556-678 | so a failure of Serve that ended a generation is returned by every later Shutdown of it |
| `LifecycleErrors.RefusedShutdownReturns` | internal/legacyserver/server.go:992-1004 | a Shutdown that the HTTP server refused returns that error, whatever else happens |
| `LifecycleErrors.RefusalIsRecorded` | internal/legacyserver/server.go:998-1004 | and records it if its generation is then current and incomplete |
| `LifecycleErrors.CompletingShutdownIsQuiet` | internal/legacyserver/server.go:1005-1012 | a Shutdown that completes a generation records no error and returns none |
| `LifecycleTheorems.FlagsAgree` | internal/legacyserver/server.go:368-420 | a pending startup excludes `started` and belongs to a live Start; `ready` implies `started` or a completion that still owes its `SetReady(false)`; `LifecycleReadiness.ReadyLastsExactly` says when the converse lasts |
| `LifecycleFields.RunKeepsFields` | internal/legacyserver/server.go:400-658 | in every reachable state the published server, listener, tracker and `serveStarted` are those of the phase of the Start that owns the generation |
| `LifecycleFields.FieldsTellPhase` | internal/legacyserver/server.go:400-658 | spelled out: absent before publication and after completion, this Start's own in between, `serveStarted` exactly from the marking on |
| `LifecycleFields.StartDecidesExactly` | internal/legacyserver/server.go:368-556 | in every reachable state a Start goes on exactly when it must: at the request, the claim, the publication, the marking and the handoff |
| `LifecycleFields.CancelledNeverServes` | internal/legacyserver/server.go:467-556 | a Start cancelled before its handoff never serves, in any continuation |
| `LifecycleFields.McpStaysClosed` | internal/legacyserver/server.go:946-953 | a Shutdown that has entered has closed MCP, and it stays closed while that generation lasts |
| `LifecycleFields.NextGenerationOpensMcp` | internal/legacyserver/server.go:400-419 | the next generation finds it open |
| `LifecycleReadiness.ReadyLastsExactly` | internal/legacyserver/server.go:521-658 | just after a handoff, `ready` survives every continuation in which that Start goes on serving and no new shutdown enters, if and only if no stopper is on its way to a `SetReady(false)` |
| `LifecycleWitnesses.ServingMayBeUnready` | internal/legacyserver/server.go:630-658 | a reachable state in which generation 2 serves, started, uncancelled and with no shutdown begun, and is unready, because a Shutdown of generation 1 stored last |
| `LifecycleReadiness.WatcherCancelsExactly` | internal/legacyserver/server.go:941-960 | a watcher's shutdown cancels a pending startup if and only if its own generation is still current, a startup is pending and nothing is started; with another generation it changes nothing |
| `LifecycleWitnesses.WatcherMayCancelSuccessor` | internal/legacyserver/server.go:941-960 | a reachable state in which the watcher of generation 1 has cancelled the startup of the next Start |
| `LifecycleReadiness.WaiterReturnsOwnErrorExactly` | internal/legacyserver/server.go:660-678 | a waiter returns its own generation's final error exactly when that generation is still current or the current one recorded the same; with a successor that nobody is stopping it returns none |
| `LifecycleWitnesses.WaiterMayMissItsError` | internal/legacyserver/server.go:400-678 | a reachable run in which generation 1 ends with an error and a Shutdown that waited for it returns none |
| `LifecycleDrain.StepKeepsDrain` | internal/legacyserver/server.go:191-253 | every step of the lifecycle together with its request trackers keeps them in step: counters, stopped and drained trackers, and who still has to drain which |
| `LifecycleDrain.RunKeepsDrain` | internal/legacyserver/server.go:191-678 | the same in every state of every run |
| `LifecycleDrain.NoHandlerAfterCompletion` | internal/legacyserver/server.go:556-658 | a generation's done channel is closed only when its tracker is drained or Serve was never called: no handler of a completed generation runs, then or ever after, and no tracker closes its channel twice |
| `LifecycleDrain.ShutdownLeavesNoHandler` | internal/legacyserver/server.go:985-1012 | a Shutdown that returns without giving up leaves no handler of its generation running, then or ever after |
| `LifecycleDrain.NoShutdownLeftBehind` | internal/legacyserver/server.go:961-1012 | a Shutdown that waits for its tracker can go on or a handler can still leave; once every Start has returned no Shutdown is blocked, whatever it waits for |
| `RequestTracker.RequestTracker.constructor` | internal/legacyserver/server.go:191-196 | a new tracker has no active request and is open |
| `RequestTracker.RequestTracker.Enter` | internal/legacyserver/server.go:198-215 | a request is admitted and counted exactly when the tracker is not stopping |
| `RequestTracker.RequestTracker.FinishRequest` | internal/legacyserver/server.go:223-230 | a finished request is uncounted, and the last one of a stopping tracker closes `done` |
| `RequestTracker.RequestTracker.StopAccepting` | internal/legacyserver/server.go:232-241 | stopping closes `done` at once when nothing is active, and a second stop changes nothing |
| `RequestTracker.StepKeepsInv` | internal/legacyserver/server.go:198-241 | the counter equals the number of running handlers, and `done` is closed exactly when a stopped tracker has none, after every step |
| `RequestTracker.RunKeepsInv` | internal/legacyserver/server.go:198-241 | the same in every state of every run |
| `RequestTracker.DrainedForGood` | internal/legacyserver/server.go:198-241 | `done` is closed at most once, and once it is closed no handler runs, then or ever |
| `RequestTracker.DrainIsSignalled` | internal/legacyserver/server.go:243-253 | a stopped tracker without running handlers has closed `done`, so no wait is left blocked |
| `Execution.FoldDeadlines` | pkg/execution/service.go:87-93 | the expiry loop yields the earliest of the base and all deadlines |
| `Execution.Earliest` | pkg/execution/service.go:87-93 | the earliest: at most every deadline, and one of them |
| `ExecutionService.Service.SaveAndEnqueue` | pkg/storage/postgres/actions.go:26-50 | a valid record with the next version over the expected one replaces the stored record and appends its event; an invalid one, another stored version or a fault of the database is refused and nothing changes |
| `ExecutionService.Service.ProposeAction` | pkg/execution/service.go:39-101 | Propose is the transaction of the protocol model, error by error |
| `ExecutionService.Service.ApproveAction` | pkg/execution/service.go:129-159 | Approve is the transaction of the protocol model |
| `ExecutionService.Service.ClaimAction` | pkg/execution/service.go:160-193 | Claim is the transaction of the protocol model |
| `ExecutionService.Service.ReceiptAction` | pkg/execution/service.go:194-236 | Receipt is the transaction of the protocol model, of which `ExecutionTheorems.ReceiptAcceptance` and `ExecutionAnswers.TransactsExactly` say what it answers and stores |
| `ExecutionService.Service.CancelAction` | pkg/execution/service.go:237-263 | Cancel is the transaction of the protocol model |
| `ExecutionService.Service.ReconcileAction` | pkg/execution/reconcile.go:16-52 | Reconcile is the transaction of the protocol model |
| `ExecutionRuns.DecisionShape` | pkg/execution/service.go:94-260 | every saving decision raises the version by one over what was read and keeps the plan |
| `ExecutionRuns.SameVersionSameRecord` | pkg/storage/postgres/actions.go:26-50 | a version identifies one record of an action's history, which is what makes the compare-and-swap sound |
| `ExecutionRuns.SavesWhatItRead` | pkg/storage/postgres/actions.go:26-50 | under any interleaving of reads and saves, a save that goes through replaces the very record its operation decided on |
| `ExecutionRuns.StepKeepsInv` | pkg/execution/service.go:39-267 | the store holds the last record of each history, histories are chains of legitimate decisions, and the outbox tells every save, after each step |
| `ExecutionRuns.RunKeepsInv` | pkg/execution/service.go:39-267 | the same in every state of every run |
| `ExecutionTheorems.HistoryShape` | pkg/execution/service.go:94-260 | plan and hash are fixed along a history, states follow PROPOSED, APPROVED, SUBMITTED and an end, or CANCELLED before submission, and state agrees with outcome code |
| `ExecutionTheorems.TerminalIsLast` | pkg/execution/service.go:215-260 | nothing follows a terminal record |
| `ExecutionTheorems.SavedBy` | pkg/execution/service.go:143-260 | which operation alone can lead to which state |
| `ExecutionTheorems.PlanExpiresFirst` | pkg/execution/service.go:87-94 | a plan's expiry is the least of its five deadlines |
| `ExecutionTheorems.ClaimChecks` | pkg/execution/service.go:102-188 | a claim's checks: approved, before approval expiry and plan expiry, by the planned unrevoked executor generation, under the pinned epoch and policy version |
| `ExecutionTheorems.ApprovalChecks` | pkg/execution/service.go:129-157 | an approval names the very hash, and fixes approver and approval expiry |
| `ExecutionTheorems.ClaimHasItsStory` | pkg/execution/service.go:160-188 | a claim is the third save of a history: a proposal, an approval of the same hash and no cancellation precede it, and its check instants lie before every deadline folded into the plan; `ExecutionStamps.StampedInTimeExactly` treats the stamp |
| `ExecutionTheorems.ClaimIsAuthorized` | pkg/execution/service.go:160-188 | in any run every Claim that returned success has that history |
| `ExecutionTheorems.AtMostOneClaim` | pkg/execution/service.go:160-188 | in any run at most one Claim of an action succeeds |
| `ExecutionTheorems.EventsTellTheHistory` | pkg/execution/service.go:264-267 | in every reachable state the events of an action are a path through the state graph, as many as its version, ending in its state |
| `ExecutionTheorems.LogGrows` | pkg/execution/service.go:264-267 | events are only ever appended |
| `ExecutionTheorems.PlansAreFixed` | pkg/execution/service.go:94-98 | between any two states of a run plan and hash are unchanged, versions do not fall, and a terminal record is unchanged |
| `ExecutionTheorems.EndsOnce` | pkg/execution/service.go:212-233 | a Receipt and a Reconcile never both end an action |
| `ExecutionTheorems.OnlyReceiptsAcknowledge` | pkg/execution/service.go:215-222 | only a Receipt may succeed without a save |
| `ExecutionTheorems.RunKeepsResults` | pkg/execution/service.go:39-267 | every successful result in a run was really saved by that job, or is a Receipt acknowledged on a record that its history holds |
| `ExecutionTheorems.ReceiptAcceptance` | pkg/execution/service.go:194-236 | when a Receipt is accepted, exactly, and which acceptance writes: the outcome, the next version and the event, under the token as it was; any refusal, a fault of the database included, changes nothing |
| `ExecutionTheorems.ReconcileAcceptance` | pkg/execution/reconcile.go:27-46 | Reconcile succeeds exactly for an authorized owner on a SUBMITTED action at least 120 s old with the same hash, if the database takes the save |
| `ExecutionTheorems.LateReceiptAcknowledged` | pkg/execution/service.go:215-222 | once a Reconcile is in an action's history, any late receipt of the token holder succeeds with the stored record and changes neither store nor outbox, in every later state |
| `ExecutionAnswers.RefusedExactly` | pkg/execution/service.go:39-263 | every operation is refused with the error of the first failing check of its own list, and with none when all pass |
| `ExecutionAnswers.SavesExactly` | pkg/execution/service.go:94-263 | an operation that passes saves exactly what it is for over the version it read: a new record with its pinned plan, an approval, a claim with its token, an outcome, a cancellation or a reconciliation; a Receipt with nothing left to report answers from the record |
| `ExecutionAnswers.TransactsExactly` | pkg/execution/service.go:39-267 | a transaction on any reachable store: refused with nothing changed, answered from the record, or saved with its one event |
| `ExecutionAnswers.FactsAreWrittenOnce` | pkg/execution/service.go:94-263 | between any two states of a run origin, approval, claim, token and end of an action, once written, stay |
| `ExecutionAnswers.TokenIsFixed` | pkg/execution/service.go:160-222 | the receipt token of an action never changes after its claim |
| `ExecutionAnswers.ReceiptIsStored` | pkg/execution/service.go:194-236 | in every reachable state an action with a Receipt in its history holds that Receipt's token and outcome and has ended |
| `ExecutionAnswers.ReplayAcknowledged` | pkg/execution/service.go:215-222 | over every run: the same receipt and outcome sent again succeed in every later state with the stored record, and change neither store nor outbox |
| `ExecutionStamps.StampedInTimeExactly` | pkg/execution/service.go:160-188 | in any reachable state: every successful claim of an approved action that begins at t and spans at most d is stamped before the approval expiry and all five deadlines, if and only if the earlier of approval expiry and plan expiry is not in (t, t + d] |
| `ExecutionStamps.TransactRuns` | pkg/execution/service.go:39-267 | a transaction that nothing interleaves with is a run of the protocol, so what one transaction can do is reachable |
| `ExecutionStamps.StampMayPassTheDeadline` | pkg/execution/service.go:174-187 | a run of a proposal, an approval and a claim whose SubmittedAt is the very expiry of plan and approval |
| `RegistryService.RemoveEach` | pkg/integration/registry.go:364-392 | the removal loop takes exactly the names whose removal succeeded, and keeps names, analyzers and flags of the others in order |
| `RegistryService.IntegrationRegistry.constructor` | pkg/integration/registry.go:145-149 | an empty registry over given registrars |
| `RegistryService.IntegrationRegistry.RegisterDefinition` | pkg/integration/registry.go:151-185 | Register as the registry model has it, state and error: no factory, an unsupported one, invalid metadata, a duplicate, or registered |
| `RegistryService.IntegrationRegistry.UnregisterDefinition` | pkg/integration/registry.go:190-216 | Unregister as the model has it: an active integration is refused |
| `RegistryService.IntegrationRegistry.ValidateAnalyzers` | pkg/integration/registry.go:703-727 | analyzers pass exactly when each has a valid, distinct name; they come out wrapped with fresh identities |
| `RegistryService.IntegrationRegistry.RollBack` | pkg/integration/registry.go:578-582 | the rollback loop unregisters the first n names, last first |
| `RegistryService.IntegrationRegistry.RegisterAnalyzers` | pkg/integration/registry.go:302-324 | all are registered, or the first failure rolls back those before it |
| `RegistryService.IntegrationRegistry.SetActive` | pkg/integration/registry.go:537-541 | exactly these analyzers become active |
| `RegistryService.IntegrationRegistry.ActivateIntegration` | pkg/integration/registry.go:266-335 | Activate as the model has it, state and error |
| `RegistryService.IntegrationRegistry.RemoveAnalyzers` | pkg/integration/registry.go:364-405 | one activation after a partial removal |
| `RegistryService.IntegrationRegistry.DeactivateIntegration` | pkg/integration/registry.go:340-406 | Deactivate as the model has it, state and error, which `RegistryAnswers.DeactivatesExactly` and `DeactivateRefuses` pin |
| `RegistryService.IntegrationRegistry.CloseAll` | pkg/integration/registry.go:410-484 | Close over every entry, in any order, with registrations arriving before the final replacement, and its error: exactly when something was kept or closing an analyzer failed |
| `RegistryTheorems.RegisterFills` | pkg/integration/registry.go:302-324 | registration only adds, in order, names that were free |
| `RegistryTheorems.RollbackUndoes` | pkg/integration/registry.go:578-582 | rolling back restores the registrar when no unregistration fails |
| `RegistryTheorems.RollbackKeeps` | pkg/integration/registry.go:578-582 | whatever fails, a rollback leaves what was there before and leaves behind only names it failed to remove |
| `RegistryTheorems.ActivationIsAtomic` | pkg/integration/registry.go:302-334 | a failed activation makes no analyzer active and changes no entry, and with a working unregister every registrar is as before |
| `RegistryTheorems.KeptIsWhatFailed` | pkg/integration/registry.go:364-392 | what a partial removal keeps is exactly what failed, in order |
| `RegistryTheorems.RemovesTheOthers` | pkg/integration/registry.go:364-392 | what it removes is exactly the rest |
| `RegistryTheorems.OwnedKeysDisjoint` | pkg/integration/registry.go:151-216 | two active integrations on one registrar own different names |
| `RegistryTheorems.CallKeepsInv` | pkg/integration/registry.go:151-484 | Register, Unregister, Activate, Deactivate and Close, and others adding and removing analyzers of their own, keep the registry invariant, whatever the registrar does |
| `RegistryTheorems.RunKeepsInv` | pkg/integration/registry.go:151-484 | in every reachable state names and analyzers are aligned, owned names are held and disjoint, and an analyzer is active exactly when an activation contains it, so no active integration is lost |
| `RegistryTheorems.RemovesInTwoGoes` | pkg/integration/registry.go:364-405 | removing the leftovers of a partial removal equals removing all at once |
| `RegistryTheorems.RetryConverges` | pkg/integration/registry.go:364-405 | from any state: a Deactivate that failed in part, followed by a Deactivate against a working registrar, ends in the very state of one Deactivate that worked at once |
| `RegistryTheorems.CloseKeepsWhatFailed` | pkg/integration/registry.go:423-479 | Close keeps exactly the integrations with an analyzer it could not remove, each with exactly those |
| `RegistryTheorems.SurvivesCloseExactly` | pkg/integration/registry.go:410-479 | an integration registered before or during a Close survives it exactly if it was active when Close began and an analyzer of it could not be removed |
| `RegistryTheorems.ArrivalIsLost` | pkg/integration/registry.go:471-479 | every Register that succeeds while a Close is under way is lost with it |
| `RegistryTheorems.RegisterMayBeLost` | pkg/integration/registry.go:471-479 | such a Register, on an empty registry |
| `RegistryTheorems.CleanCloseEmpties` | pkg/integration/registry.go:423-479 | a Close without failures leaves nothing registered and nothing active |
| `RegistryTheorems.CloseTakesExactly` | pkg/integration/registry.go:423-479 | Close takes from each registrar exactly the owned names whose removal did not fail, and changes nothing else there |
| `RegistryTheorems.CleanCloseTakesOwned` | pkg/integration/registry.go:423-479 | without failures each registrar loses exactly the names the integrations owned there |
| `RegistryAnswers.RegistersExactly` | pkg/integration/registry.go:151-185 | Register succeeds exactly for a described factory under a free key, adds exactly that one, inactive, and tells each refusal apart |
| `RegistryAnswers.SameKeyExactly` | pkg/integration/registry.go:675-677 | two names have the same key exactly when, without white space around them, they differ only in ASCII letter case |
| `RegistryAnswers.UnregistersExactly` | pkg/integration/registry.go:190-216 | Unregister takes exactly the named integration, exactly when it is there and inactive |
| `RegistryAnswers.UnregisterUndoes` | pkg/integration/registry.go:151-216 | unregistering undoes registering |
| `RegistryAnswers.ActivatesExactly` | pkg/integration/registry.go:266-335 | Activate of a registered inactive integration succeeds exactly when its analyzers have valid distinct names and the registrar takes each in turn |
| `RegistryAnswers.ActivationGains` | pkg/integration/registry.go:302-335 | it then holds all its analyzers, in order, under fresh identities and active, its registrar has gained exactly their keys, and nothing else changed |
| `RegistryAnswers.ActiveStays` | pkg/integration/registry.go:266-292 | an absent or active integration is left alone, with success exactly on its own registrar |
| `RegistryAnswers.DeactivatesExactly` | pkg/integration/registry.go:340-406 | on its own registrar: the integration keeps exactly the analyzers whose removal failed, in order, the registrar loses exactly the other names, exactly those analyzers stop being active, and it succeeds exactly when nothing failed |
| `RegistryAnswers.DeactivateRefuses` | pkg/integration/registry.go:340-362 | in every other case Deactivate changes nothing, with which answer |
| `RegistryAnswers.DeactivateUndoesActivate` | pkg/integration/registry.go:266-406 | deactivating undoes activating, but for the identities used up |
| `RegistryAnswers.CloseSucceedsExactly` | pkg/integration/registry.go:410-484 | Close succeeds exactly when every removal and every closing worked |
| `Rubric.ChecksAllowed` | pkg/investigation/rubric.go:26-39 | requested checks pass exactly when each has a known kind and an observed handle |
| `Rubric.IndexByRef` | pkg/investigation/rubric.go:40-46 | the loop builds the index of current evidence |
| `Rubric.AllKnown` | pkg/investigation/rubric.go:57-61 | a list of citations resolves exactly when each is in the index |
| `Rubric.FindHealthy` | pkg/investigation/rubric.go:74-80 | the search over the map, in any order, finds a health contradiction exactly when there is one |
| `Rubric.AssessCandidate` | pkg/investigation/rubric.go:14-99 | the whole procedure computes the rubric's verdict |
| `Rubric.IndexIsInForce` | pkg/investigation/rubric.go:40-46 | the index holds exactly the current items no later current item replaces |
| `Rubric.IndexIgnoresOrder` | pkg/investigation/rubric.go:40-46 | permuting evidence with distinct references gives the same index |
| `Rubric.AssessmentIgnoresOrder` | pkg/investigation/rubric.go:40-98 | and the same assessment |
| `Rubric.HypothesisExactly` | pkg/investigation/rubric.go:40-98 | HYPOTHESIS exactly for a sound conclusion whose cause a cited item in force states of its resource, that nothing contradicts and that is neither symptom nor non-cause; never CORROBORATED |
| `Rubric.JudgesExactly` | pkg/investigation/rubric.go:14-99 | exactly the sound conclusions are judged, said without the index, each with the status and reason that the evidence in force gives it; every other one is an error |
| `Rounds.NoteEach` | pkg/investigation/rounds.go:93-99 | the loop over requested checks notes each, or finds a repetition |
| `Rounds.OneRound` | pkg/investigation/rounds.go:44-123 | one round of the loop, branch by branch; `RoundsAnswers.TurnGoesOnExactly` says when another follows |
| `Rounds.ExecuteRounds` | pkg/investigation/rounds.go:32-126 | the whole loop computes the trace the theorems are about; `RoundsAnswers.DiagnosesExactly` says which trace that is |
| `Rounds.RecordEach` | pkg/investigation/agent.go:273-289 | the recorded rounds are the submitted ones with latency, counts and token usage in bounds, renumbered and with the orchestrator's verdict, or an error |
| `RoundsTheorems.CallsAreBounded` | pkg/investigation/rounds.go:43-117 | from any round on at most the remaining calls, and refreshes only before the last round |
| `RoundsTheorems.NoCheckAskedTwice` | pkg/investigation/rounds.go:93-100 | no check is passed to refresh twice |
| `RoundsTheorems.RefusedExactlyWhenRepeated` | pkg/investigation/rounds.go:93-99 | a list of checks is refused exactly when it repeats a check asked before or itself |
| `RoundsTheorems.TentativeStaysOnItsSnapshot` | pkg/investigation/rounds.go:51-118 | a tentative conclusion is shown only if the previous call formed it on the same snapshot; the run ends on the snapshot shown last, in the environment it began in |
| `RoundsTheorems.ResultIsSettled` | pkg/investigation/rounds.go:78-125 | without an error the result is the rubric's verdict on the final snapshot or an admitted abstention |
| `RoundsTheorems.DiagnosisIsBounded` | pkg/investigation/rounds.go:32-126 | for any provider, refresh and clock: at most 3 calls, 2 refreshes, no repeated check, nothing stale shown, environment unchanged |
| `RoundsTheorems.HypothesisIsEarned` | pkg/investigation/rounds.go:32-126 | HYPOTHESIS without error only after three calls, as the rubric's verdict on the third answer and exactly the returned snapshot; `RoundsAnswers.HypothesisEarnedExactly` is the converse too |
| `RoundsAnswers.TurnGoesOnExactly` | pkg/investigation/rounds.go:44-123 | a round is followed by another exactly when its answer parses, the rubric accepts it and does not find it inconclusive, and the checks it asks for, if any, were not asked before and bring a snapshot of the same environment; and what the next is shown |
| `RoundsAnswers.DiagnosesExactly` | pkg/investigation/rounds.go:32-126 | the whole run call by call: what each is shown, when another follows and what the last one leaves as assessment and error |
| `RoundsAnswers.StopsEarlyExactly` | pkg/investigation/rounds.go:43-123 | a run has fewer than three calls exactly when a call before the third breaks it off, for one of the listed causes |
| `RoundsAnswers.HypothesisEarnedExactly` | pkg/investigation/rounds.go:32-126 | HYPOTHESIS without error if and only if there were three calls, the third asks no check and the returned snapshot supports its conclusion |
| `RoundsAnswers.PhasesInOrder` | pkg/investigation/rounds.go:43-50 | which phase each call is in |
| `RoundsAnswers.NoProviderAbstains` | pkg/investigation/rounds.go:32-42 | without a provider nothing is asked, and the result is an abstention |
| `RoundsAnswers.AcceptsExactly` | pkg/investigation/agent.go:227-241 | a submitted result is accepted exactly with at most three rounds and a conclusion the rubric accepts, or none and one of eight reasons, and with which verdict |
| `RoundsTheorems.HonestResultAccepted` | pkg/investigation/agent.go:227-241 | every error-free result, judged on its final snapshot at the same instant, is accepted with the same assessment |
| `RoundsTheorems.CertaintyCannotBeClaimed` | pkg/investigation/agent.go:227-241 | whatever was submitted, a HYPOTHESIS is the rubric's own on the stored evidence, and CORROBORATED is never given |
| `RoundsTheorems.ClaimedStatusIgnored` | pkg/investigation/agent.go:227-241 | the status an agent asserts has no influence |
| `RoundsTheorems.HonestRoundsRecorded` | pkg/investigation/agent.go:273-289 | the rounds of a run are recorded, under their own numbers, exactly when no snapshot exceeded 64 items and the latency and usage of every call were in range |
| `CanonicalJson.Decoder.Next` | pkg/incident/evidence.go:82-85 | the next token, or none at the end or at a lexical fault |
| `CanonicalJson.Decoder.ReadValue` | pkg/incident/evidence.go:78-133 | the recursive reader computes the reading function and leaves the decoder where that says |
| `CanonicalJson.Decoder.ReadObject` | pkg/incident/evidence.go:91-116 | its loop over an object's members |
| `CanonicalJson.Decoder.ReadArray` | pkg/incident/evidence.go:117-129 | its loop over an array's items |
| `CanonicalJson.Canonicalize` | pkg/incident/evidence.go:56-77 | the whole procedure computes the canonical bytes or refuses; `CanonicalTheorems.CanonicalOfText` and `CanonicalIsFixed` say which bytes |
| `CanonicalTheorems.ReadsText` | pkg/incident/evidence.go:78-133 | reading the text of any document gives its meaning, or fails exactly when some object at some depth repeats a name or nesting exceeds the bound |
| `CanonicalTheorems.ReadIsText` | pkg/incident/evidence.go:78-133 | whatever is read was the text of a document without repeated names |
| `CanonicalTheorems.RenderMeans` | pkg/incident/evidence.go:72-76 | what is written is proper, means the value and is sorted: in every object at every depth each name precedes the next, as a proper prefix or at the first difference |
| `CanonicalTheorems.RenderFixes` | pkg/incident/evidence.go:72-76 | a sorted document is written back as it is |
| `CanonicalTheorems.CanonicalOfText` | pkg/incident/evidence.go:56-77 | on the text of an object: refused exactly for a repeated name at any depth, excess depth or size; otherwise the sorted text |
| `CanonicalTheorems.AcceptedExactly` | pkg/incident/evidence.go:56-77 | accepted exactly: texts of objects with unique names (section 4 of RFC 8259) within the bounds |
| `CanonicalTheorems.OrderDoesNotMatter` | pkg/incident/evidence.go:54-77 | objects equal up to the order of names at any depth have the same canonical bytes, or are both refused |
| `CanonicalTheorems.CanonicalIsFixed` | pkg/incident/evidence.go:54-77 | canonical bytes are the text of a sorted object that means the same, and canonicalizing them again changes nothing |
| `CanonicalTheorems.SortedIsKept` | pkg/incident/evidence.go:72-76 | an object that is already sorted keeps its tokens |
| `Ordering.BelowExactly` | pkg/incident/evidence.go:72-76 | one text is below another if and only if it is a proper prefix or smaller at the first difference |
| `Ordering.AscendExactly` | pkg/incident/evidence.go:72-76 | a list is strictly ascending if and only if any earlier text precedes any later one in that sense |
| `Sealing.RefBelowExactly` | pkg/incident/evidence.go:26-32 | parents compare by id in that order, and by version where ids are equal |
| `Sealing.SortedAscend` | pkg/incident/evidence.go:26-32 | sorted parents without repetition strictly ascend |
| `Sealing.SortSorts` | pkg/incident/evidence.go:26-32 | the parents come out sorted by id and version, none lost or added; `Sealing.RefBelowExactly` and `SortedAscend` say in which order |
| `Sealing.ParentsPassExactly` | pkg/incident/evidence.go:33-37 | parents pass exactly when each is valid, none is the item itself and none is named twice, in whatever order they came |
| `Sealing.ItemHolder.SealItem` | pkg/incident/evidence.go:18-52 | the item is overwritten by its sealed form, or left alone with an error, also when its envelope cannot be encoded |
| `Sealing.SealsExactly` | pkg/incident/evidence.go:18-47 | an item is sealed exactly when scope, ids, version, kind, instants and number of parents are in bounds, its body is the text of an acceptable object, every parent is valid, another item and named once, and the sealed envelope can be encoded |
| `Sealing.SealedSaysTheSame` | pkg/incident/evidence.go:38-51 | the hash covers the whole sealed envelope, which holds the same parents, each preceding the next by id as text and then version, the same instants in UTC, the canonical body and nothing else changed |
| `Sealing.SealIsIdempotent` | pkg/incident/evidence.go:18-52 | a sealed item seals to itself, hash included |
| `Sealing.EquivalentItemsSealAlike` | pkg/incident/evidence.go:18-52 | items that differ in the order of parents or body names, in time zones or in the claimed hash seal to the same item and hash, or are both refused |
| `Sealing.ClaimedHashIgnored` | pkg/incident/evidence.go:16-51 | a caller's hash is never believed |
| `Evaluation.Summary.constructor` | pkg/evaluation/compare.go:69 | a fresh summary counts nothing |
| `Evaluation.Summary.CountCase` | pkg/evaluation/compare.go:121-134 | positive and negative counters after one answer |
| `Evaluation.Summary.CountCost` | pkg/evaluation/compare.go:135-144 | latency and usage sums after one answer |
| `Evaluation.Summary.Accumulate` | pkg/evaluation/compare.go:113-145 | all counters after one answer |
| `Evaluation.Account` | pkg/evaluation/compare.go:77-85 | both summaries and the wins after one case |
| `Evaluation.TallyCases` | pkg/evaluation/compare.go:70-86 | the loop over the cases, or an early end when the context ends |
| `Evaluation.RunCases` | pkg/evaluation/compare.go:70-93 | the report accumulated over all cases |
| `Evaluation.Compare` | pkg/evaluation/compare.go:59-94 | the whole comparison: refused exactly for an invalid dataset, runners recorded for another one or a budget that does not fit; cancelled; or the report whose every counter counts the pairs of its kind |
| `Evaluation.ValidateEvidence` | pkg/evaluation/dataset.go:66-72 | the loop over a case's evidence passes exactly when every item is valid and no reference repeats |
| `Evaluation.ValidateDataset` | pkg/evaluation/dataset.go:54-95 | the loop over the cases passes exactly the valid datasets: good cases with distinct ids, of both kinds, under the dataset's own hash |
| `Evaluation.BothKindsAreMeasured` | pkg/evaluation/compare.go:113-134 | a report on an accepted dataset has positive and negative cases, which are all its cases, on both sides |
| `Evaluation.FoldingCounts` | pkg/evaluation/compare.go:70-92 | accumulating case by case equals counting kind by kind |
| `Evaluation.RightExactly` | pkg/evaluation/compare.go:95-112 | an answer is correct exactly when it names the expected cause and handle and the evidence supports it, or abstains where none is expected |
| `Evaluation.NegativeOutcomes` | pkg/evaluation/compare.go:95-112 | a negative case is right, a false hypothesis or an error, and only one of them |
| `Evaluation.EachPairIsDecided` | pkg/evaluation/compare.go:79-85 | candidate wins + baseline wins + ties = cases |
| `Evaluation.WinsAreTheLead` | pkg/evaluation/compare.go:79-85 | candidate correct - baseline correct = candidate wins - baseline wins |
| `Evaluation.CountersAddUp` | pkg/evaluation/compare.go:113-134 | cases split into positive and negative, correct answers likewise |
| `Evaluation.NegativesAddUp` | pkg/evaluation/compare.go:113-134 | for every dataset and pair of runners, negative cases = negative correct + false positives + negative errors, on each side |
| `Evaluation.UsageKnownExactly` | pkg/evaluation/compare.go:87-92 | usage is reported exactly when every call told it |
| `Evaluation.ValidateCase` | pkg/evaluation/dataset.go:61-86 | a case is good exactly by its own fields, whatever the other cases are |
| `Evaluation.EachSideIsItsRunner` | pkg/evaluation/compare.go:77-112 | on each side, the score of a case is about that side's own runner: its latency and usage, right exactly when that runner's output answers the case, an error exactly when it is unusable |
| `Evaluation.CountIsSize` | pkg/evaluation/compare.go:113-134 | every count is the number of positions of its kind |
| `Evaluation.ReportCounts` | pkg/evaluation/compare.go:70-92 | correct answers are the cases a side's runner answers, and wins those it alone answers |
| `FileCache.Cache.constructor` | pkg/cache/file.go:40-73 | a cache over a directory, with counters at zero |
| `FileCache.Cache.ReadEnvelope` | pkg/cache/file.go:402-433 | a file opens to its envelope or is removed as corrupt |
| `FileCache.Cache.ReadKey` | pkg/cache/file.go:381-400 | the entry for a key: absent, corrupt, expired or its value, with the file removed in the middle two cases |
| `FileCache.Cache.GetValue` | pkg/cache/file.go:99-123 | Get as the directory model has it, counters included |
| `FileCache.Cache.PutValue` | pkg/cache/file.go:136-207 | Set as the directory model has it: every refusal in the source's order, or the sealed file |
| `FileCache.Cache.RemoveKey` | pkg/cache/file.go:209-230 | Remove as the directory model has it |
| `FileCache.Cache.ListEntries` | pkg/cache/file.go:235-281 | List as the directory model has it, removing corrupt and expired files on the way |
| `FileCache.Cache.PurgeAll` | pkg/cache/file.go:283-307 | Purge as the directory model has it, also when interrupted |
| `CacheTheorems.PreparedIsWellFiled` | pkg/cache/file.go:145-175 | what Set writes is accepted by Get's checks exactly when its key is settled, that is keeps its digest through decoding and one more normalization; sizes always fit the read bound |
| `CacheTheorems.StepRefines` | pkg/cache/file.go:99-307 | on settled keys each operation is a step of a bounded map with expiry, with the same answer, and counts no corruption |
| `CacheTheorems.RunRefines` | pkg/cache/file.go:99-307 | any sequence of operations that stores only under settled keys gives exactly the answers of that map |
| `CacheTheorems.NeverCorrupt` | pkg/cache/file.go:381-446 | in no such run is anything reported or counted as corrupt |
| `CacheTheorems.CorruptExactly` | pkg/cache/file.go:136-207 | right after a Set that is done, an unexpired Get reports the entry corrupt, and removes it, if and only if the key is not settled; otherwise it returns the value |
| `CacheTheorems.NeverCorruptExactly` | pkg/cache/file.go:99-307 | for any set of keys: no run that sets only these ever reports or counts corruption, if and only if each of them that can be stored is settled |
| `CacheTheorems.ListDropsExactly` | pkg/cache/file.go:235-281 | a finished List drops an entry just set if and only if decoding changed the digest of its key |
| `CacheWitnesses.NormalExactly` | pkg/cache/cache.go:369-380 | a normalized endpoint without scheme stays as it is under normalization exactly when it does not end in white space |
| `CacheWitnesses.EndpointSettledExactly` | pkg/cache/cache.go:369-380 | such an endpoint is settled exactly when normalizing it twice leaves no white space at its end |
| `CacheWitnesses.SetMayBeLost` | pkg/cache/cache.go:369-380 | a run in which Set accepts the endpoint `f / /` and Get reports it corrupt and removes it |
| `CacheWitnesses.TextSettledExactly` | pkg/cache/cache.go:224-242 | a key is settled under escaping and replacement exactly when its text is valid |
| `CacheWitnesses.TextMayBeLost` | pkg/cache/cache.go:224-242 | a run in which a key with invalid text is set and lost |
| `CacheTheorems.ListIsComplete` | pkg/cache/file.go:235-281 | a finished List returns, each digest strictly preceding the next, exactly the entries unexpired at their turn, and keeps only those |
| `CacheTheorems.StepBounded` | pkg/cache/file.go:191-201 | no operation takes any directory over `maxEntries` |
| `CacheTheorems.RunBounded` | pkg/cache/file.go:136-207 | no run that starts within `maxEntries` exceeds it, whatever the files hold |
| `CacheTheorems.LastSetIsReturnedExactly` | pkg/cache/file.go:99-207 | from any directory: after a successful Set and until an operation that goes through sets the entry again, removes it, purges it or sees it expired, an unexpired Get under any spelling returns its value if and only if the key is settled |
| `CacheTheorems.QuietKeeps` | pkg/cache/file.go:99-307 | an operation that is refused, cancelled or about other entries leaves a file that Get accepts as it is |
| `CacheTheorems.PreparesExactly` | pkg/cache/file.go:136-175 | what Set checks before it looks at the directory, and which error comes first |
| `CacheTheorems.SetLasts` | pkg/cache/file.go:136-207 | a Set that is done files the sanitized value under the key's digest, created now and expiring after the given lifetime, or after the default when none or zero is given |
| `CacheTheorems.OpensExactly` | pkg/cache/file.go:402-446 | a file opens exactly when it is regular, within the read bound, sealed, of this version and filed under its key's digest |
| `CacheTheorems.RemovesExactly` | pkg/cache/file.go:209-230 | Remove takes exactly the file of its key and counts it exactly when it was there |
| `CacheTheorems.CountsExactly` | pkg/cache/file.go:99-307 | what each operation adds to each counter, told by its answer and the files it dropped |
| `CacheTheorems.PurgesExactly` | pkg/cache/file.go:283-307 | Purge finishes exactly when its context stands throughout, and then nothing is left |
| `CacheTheorems.ListsExactly` | pkg/cache/file.go:235-281 | List finishes exactly when its context stands throughout |
| `CacheTheorems.ListComesSorted` | pkg/cache/file.go:235-281 | in any directory, whatever its files hold, List returns its entries in the order of their digests as text, as proper prefix or first difference tell |
| `CacheTheorems.RefusedTooSoonExactly` | pkg/cache/file.go:136-207 | a Set that passes every other check is refused for the limit while fewer than `maxEntries` entries are live, if and only if its entry is new, the files reach the limit and the live ones do not |
| `CacheTheorems.RefusedTooSoonInBounds` | pkg/cache/file.go:191-201 | within the bound that is: the entry is new, the directory is full and something in it is not live |
| `CacheTheorems.ListMakesRoom` | pkg/cache/file.go:235-281 | right after a finished List whose clock had reached the Set's instant no Set is refused so |
| `CacheTheorems.LimitMayRefuseTooSoon` | pkg/cache/file.go:191-201 | from an empty directory, one Set and its expiry lead to such a refusal with nothing live |
| `Arguments.ConfigFlags` | internal/legacyagent/main.go:648-682 | the scanning loop computes the flags of the argument list |
| `Arguments.NormalizeArgs` | internal/legacyagent/main.go:706-716 | the rewriting loop with its in-place cut computes the rewritten list |
| `Arguments.DashesAreFlags` | internal/legacyagent/main.go:694-720 | a dashed argument is no boolean word, and a twice dashed one no value |
| `Arguments.RewritingKeepsFlags` | internal/legacyagent/main.go:648-720 | for all argument lists, rewriting changes no configuration flag |
| `Arguments.RewritingIsIdempotent` | internal/legacyagent/main.go:706-716 | rewriting twice is rewriting once |
| `Arguments.RewritingKeepsPathExactly` | internal/legacyagent/main.go:610-620 | rewriting keeps the configuration path exactly when `--config` is not followed by `--playbook-enabled` and a boolean |
| `Arguments.PathCanChange` | internal/legacyagent/main.go:610-620 | a counterexample: with `--config --playbook-enabled true` the path does change |
| `Arguments.ReadsJoined` | internal/legacyagent/main.go:648-658 | any dashes, a name, an equals sign and a value read as that flag with that value |
| `Arguments.ReadsApart` | internal/legacyagent/main.go:648-682 | a name alone takes the next argument exactly when that may be its value; otherwise it is a switch or nothing |
| `Arguments.FlagsExactly` | internal/legacyagent/main.go:630-692 | a flag is set exactly when it is said, to the last value said or, if repeatable, to those since the last empty one |
| `Arguments.PathExactly` | internal/legacyagent/main.go:610-620 | the configuration path is what the first argument that names one names |
| `Arguments.NoPath` | internal/legacyagent/main.go:610-620 | and empty when none does |
| `Arguments.RewritingJoinsAll` | internal/legacyagent/main.go:706-716 | after rewriting no such flag is followed by a boolean it could be joined with |
| `Notifications.Notifier.constructor` | internal/legacyagent/main.go:1338-1341 | nothing is remembered at first |
| `Notifications.Notifier.ForgetOld` | internal/legacyagent/main.go:1358-1362 | the pruning loop, in any order, forgets exactly what is older than 24 hours |
| `Notifications.Notifier.NotifyNewProposal` | internal/legacyagent/main.go:1343-1387 | the whole call: known, too soon, or announced and remembered under both keys, with the transport's error exactly when announced |
| `Notifications.SameTargetExactly` | internal/legacyagent/main.go:1347-1350 | proposals for the same action on the same resource share a target key, and without slashes in namespace, kind and name only those |
| `Notifications.SameIssueExactly` | internal/legacyagent/main.go:1351 | two proposals share an issue key exactly when their issues are the same |
| `Notifications.CollidesExactly` | internal/legacyagent/main.go:1347-1350 | a target shares its key with a different one if and only if its namespace, kind, name or action type holds a slash |
| `Notifications.SlashesMayCollide` | internal/legacyagent/main.go:1347-1350 | two such targets |
| `Notifications.TargetIsNoIssue` | internal/legacyagent/main.go:1347-1351 | a target key is never an issue key |
| `Notifications.NextKeepsInv` | internal/legacyagent/main.go:1356-1376 | one call keeps the memory faithful to what was announced, despite pruning |
| `Notifications.RunKeepsApart` | internal/legacyagent/main.go:1343-1387 | so does any run with a non-decreasing clock |
| `Notifications.AnnouncementsAreADayApart` | internal/legacyagent/main.go:1343-1387 | in any such run two announcements sharing a target or issue key are at least 24 hours apart |
| `Notifications.AnnouncedExactly` | internal/legacyagent/main.go:1343-1387 | a proposal is announced exactly when it is unknown and no announcement sharing a key is less than 24 hours old |

## Left out

- Generated protobuf and gRPC code, command entry points, HTTP handlers, MCP, OIDC, messaging,
  webhooks, configuration resolution, metrics, the Falco parser and role tables: calls into libraries,
  or field-by-field validation and copying without state of its own.
- PostgreSQL: transactions are atomic, saves are compare-and-swap on the version, and one scope's
  store is modelled. A commit that fails after it took effect is not modelled.
- Liveness: nothing is said about threads being scheduled, only that a step is enabled or a channel
  closed.
- The lifecycle assumes that nobody outside it calls `SetReady` and that generations do not wrap around
  64 bits. What `http.Server` does inside Serve and Shutdown is an arbitrary outcome of one step.
- The registry does not model somebody else removing one of its analyzers from a registrar, others using
  a registrar in the middle of one of its calls, the panics of factories and registrars, or what closing
  an analyzer does beyond failing. Letter case of names is folded for ASCII letters only.
- The diagnosis does not distinguish nil from empty lists in a conclusion, does not model prompt text or
  golden guidance, and takes the details of an observation (source, target, dependencies, metrics) as one
  validity flag.
- JSON is modelled on tokens: lexing, escapes, white space, commas and the byte length of written text
  are below the model. The length is any function that is positive on non-empty text.
- Digests, encryption, encoding, normalization and the sanitizer are parameters of the cache; assumed is
  only that what was sealed opens again. URLs with a scheme and redaction inside keys are part of the
  normalization parameter and have no model of their own.
- The cache is one process on one directory. File-system errors, permissions, temporary files, a failing
  encryptor and other processes are not modelled.
- The tables of known flags and of flags that take a value, the two boolean words in any letter case,
  and number parsing are parameters. Assumed of them is only that a boolean word does not start with a
  dash and a number not with two.
- ExecutionService.Service.SaveAndEnqueue: models one scope, because rows of different scopes never meet.
- FileCache.Cache.PutValue: counts the directory by the size of the file map instead of a loop over
  directory entries.
- CacheTheorems.LastSetIsReturnedExactly: speaks of the value sanitized twice, because Set sanitizes what it
  stores and Get what it returns.
- Evaluation.Compare: takes the strict decoding of an encoded dataset and its digest as parameters, and sums
  latencies over real numbers, without floating-point rounding.
