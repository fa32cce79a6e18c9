# OpenACP runtime model

A Dafny model of the parts of OpenACP that keep agent processes, agent identity and
streamed text right while operations fail and overlap. Each part is the source's own
algorithm or protocol, stated with its branches, limits and error paths, and proved
against what its comments and tests promise.

- **Fingerprints** (`Fingerprint.dfy`, over `JsText.dfy`): canonical JSON text is a faithful
  name for a definition; two fingerprints are equal exactly when the inputs mean the same.
- **Warm pool** (`WarmPool*.dfy`, `AgentManager.dfy`): a single-slot pool of pre-spawned
  agent processes as a state machine whose steps run from one `await` to the next, an
  inductive invariant over every interleaving, and the class whose methods are those steps.
- **Agent switch** (`AgentSwitch*.dfy`): a transaction over runtime agent, bridges, action
  UI and durable record, with rollback. A `World` carries one `Tick` for every point where
  the transaction gives up control; during a tick the session may be terminated, replaced
  or finished, adapters may come, go, attach and detach, prompts may be counted, and the
  awaited operation may fail. The class runs the same transaction over a session object.
- **Agent store and catalog** (`InstalledAgents.dfy`, `StoreMerge.dfy`, `AgentStore.dfy`,
  `RegistryReconciliation.dfy`, `AgentCatalog.dfy`): an optimistic three-way merge over one
  file shared by many store objects, and the reconciliation that uses it to bring installed
  agents up to date without lowering or falsifying a version.
- **Sequence algorithms**: `SplitMessage.dfy`, `SkillPacking.dfy`, `LineDiff.dfy`, and the
  tool event accumulator (`ToolEvents.dfy`, `ToolState.dfy`).

Code that the source writes as methods over mutable fields is a class here; each method's
contract ties its new state to a function of the old one, and the theorems are about those
functions. Text is a sequence of UTF-16 code units where lengths matter.

## What the proofs found

- Double failure of a switch is never recorded: the `status: "error"` patch is sent after
  `session.destroy()`, and `patchRecord` silently drops patches of a terminating session.
- `session.switchAgent` is not atomic, although the handler's comment says so: it pushes a
  history entry and tears the old process down before its factory runs. The rollback is what
  restores the session.
- A failed cleanup is announced even when the session terminates while the old bridges are
  reconnected: a result is announced after the end exactly when the session had bridges and
  it is terminated or replaced inside one of the `connect` calls that bring them back.
- After a failed cleanup, reconnection stops at the first adapter that is unavailable, and
  later, healthy adapters stay without a bridge.
- A rollback drops the bridge of an adapter that was attached during the switch before the
  failure was announced. After it, an attached adapter is bridged exactly when it was attached
  again since, or was captured, its lease is current and the session had bridges.
- `session.fail` throws for a session that finished meanwhile, so a double failure then
  leaves a live session without a bridge and with a history the record does not have.
- Without a fence extension a chunk of a split message can exceed the limit for every limit
  from 4 to 854, and for no other.
- Of several tool updates that arrive before their call only the newest survives; of two, the
  first is lost without trace exactly when everything it says is said by the second or the call.
- A store whose lock is busy, or whose file cannot be read, keeps data that the file may no
  longer hold; in every other case memory and file agree after a call.
- Two reconcilers that make the same upgrade conflict, although the file is already right.

## Model

| member | source | states |
|---|---|---|
| Fingerprint.CanonicalJsonTotal | src/core/agents/agent-manager.ts:77-94 | canonicalJson throws on exactly the values that contain a non-finite number or something that is not JSON |
| Fingerprint.CanonicalJsonInjective | src/core/agents/agent-manager.ts:77-94 | two canonical texts are equal exactly when the values are equal up to object key order and undefined members |
| Fingerprint.FingerprintExists | src/core/agents/agent-manager.ts:96-108 | a fingerprint exists exactly when definition and environment are serialisable |
| Fingerprint.FingerprintsEqual | src/core/agents/agent-manager.ts:96-108 | fingerprints are equal exactly when definitions and environments mean the same, the directories are the same text and the path lists are the same multiset |
| Fingerprint.PathListsEqual | src/core/agents/agent-manager.ts:62-70 | the loop over sorted copies decides multiset equality |
| WarmPoolTheorems.ProcessOwnership | src/core/agents/agent-manager.ts:207-428 | in every reachable state each process a prewarm spawned is in exactly one of: the slot, the hands of a caller, the confirmed destroyed |
| WarmPoolTheorems.SlotNeverOverwritten | src/core/agents/agent-manager.ts:343-428 | no step puts another process over the one in the slot |
| WarmPoolTheorems.HandedToOneCaller | src/core/agents/agent-manager.ts:554-607 | two spawn calls that returned the same process are the same call |
| WarmPoolTheorems.SlotShape | src/core/agents/agent-manager.ts:207-313 | a cleanup is of the entry in the slot; a claim is of that entry and excludes cleanup; a prewarm in flight meets an occupied slot only while that entry is cleaned up; at most one destroy call is in flight |
| WarmPoolTheorems.OtherEntryBranchUnreachable | src/core/agents/agent-manager.ts:216-218 | wherever beginWarmCleanup is called there is an operation to await: the branch for another entry is dead |
| WarmPoolTheorems.StatusIsTruthful | src/core/agents/agent-manager.ts:280-313 | each reported status characterised by the state; empty means that no process is owned, being spawned or being destroyed |
| WarmPoolTheorems.PooledProcessMatchesRequest | src/core/agents/agent-manager.ts:491-592 | a spawn that returns a pooled process was its only recipient; the process was alive and within its lifetime when taken, and before and after the claim call definition, environment, directory and paths meant the same as at its spawn |
| WarmPoolTheorems.ServingProcessMatches | src/core/agents/agent-manager.ts:498-522 | the match by fingerprint accepts exactly the processes spawned with what a spawn would use now |
| WarmPoolDecisions.UnclaimedSpawnIsAnswered | src/core/agents/agent-manager.ts:554-606 | a spawn call that claims nothing is answered at once: a fresh subprocess of the runtime resolved now exactly when the agent is installed and can be fingerprinted, else the not-installed error; a pool without a ready process is left as it is |
| WarmPoolDecisions.ReadyProcessIsClaimedExactly | src/core/agents/agent-manager.ts:491-606 | on a ready pool a spawn call claims the process exactly when it serves the request, was spawned under the current policy, is at most five minutes old and alive; otherwise it gets the same answer as without a pool, and the process is left alone if agent or directory differ and destroyed if not |
| WarmPoolDecisions.PrewarmKeepsServingProcess | src/core/agents/agent-manager.ts:343-376 | on a ready pool a prewarm changes nothing exactly when the process serves the request or the agent cannot be resolved; otherwise the first attempt to destroy the process begins and the prewarm waits for it |
| WarmPoolDecisions.IdlePoolBeginsPrewarm | src/core/agents/agent-manager.ts:343-380 | unless a process is ready, a prewarm begins exactly on an empty pool for a resolvable agent, with the runtime, policy and generation of the call; otherwise nothing changes |
| WarmPoolDecisions.ReplacementIsTold | src/core/agents/agent-manager.ts:370 | the prewarm that waits for a replacement learns how the destroy call ended |
| WarmPoolDecisions.ReplacementPrewarmsAgain | src/core/agents/agent-manager.ts:370-374 | after a confirmed destroy it begins like a prewarm of that moment, unless closing or not idle; after a failed one it does nothing |
| WarmPoolDecisions.SpawnedProcessIsKeptExactly | src/core/agents/agent-manager.ts:381-420 | the process a prewarm yields carries the inputs of the prewarm and the current time; it is ready, with its lifetime running, exactly when not closing, generation and policy are unchanged and it serves what is installed now; otherwise it is being destroyed, retried unless closing, and the prewarm ends with that |
| WarmPoolDecisions.FailedSpawnLeavesNothing | src/core/agents/agent-manager.ts:422-426 | a prewarm whose spawn fails ends and leaves the slot empty |
| WarmPoolDecisions.ClaimIsDecidedExactly | src/core/agents/agent-manager.ts:565-579 | a claim hands the process over, and frees the slot, exactly when the claim call succeeds and the process still serves the request; otherwise nothing is handed over, its destroy begins and the call waits for it |
| WarmPoolDecisions.ClaimedProcessIsReturned | src/core/agents/agent-manager.ts:580-592 | the caller of a successful claim gets the process, and an idle pool is refilled for the same request with what is installed then |
| WarmPoolRetries.ConfirmedDestroyFreesSlot | src/core/agents/agent-manager.ts:236-241 | a confirmed destroy frees the slot and accounts for the process |
| WarmPoolRetries.FailedDestroyIsRetried | src/core/agents/agent-manager.ts:185-200 | after a failed destroy the process stays owned, and a retry is armed exactly when no shutdown has begun and fewer than three attempts were made |
| WarmPoolRetries.RetryBeginsNextAttempt | src/core/agents/agent-manager.ts:194-198 | a retry that fires begins the next attempt, at most the third |
| WarmPoolRetries.ExpiredProcessIsDestroyed | src/core/agents/agent-manager.ts:261-278 | when its lifetime ends a ready process is destroyed |
| WarmPoolRetries.DestroyWarmWaits | src/core/agents/agent-manager.ts:435-448 | destroyWarm outdates prewarms and lifetime, then waits for a prewarm in flight, else for a claim, else for the destroy of the process in the slot, which it begins unless it is in flight, else returns |
| WarmPoolRetries.DestroyWarmGoesOn | src/core/agents/agent-manager.ts:435-448 | once woken it goes on in that order and returns when the destroy it waited for has settled |
| WarmPoolRetries.ShutdownGoesOn | src/core/agents/agent-manager.ts:460-470 | after a successful or a third failed attempt shutdown closes initialisations, after an earlier failure it pauses |
| WarmPoolRetries.ShutdownEnds | src/core/agents/agent-manager.ts:471-478 | with the initialisations closed a shutdown is over, and a later call starts anew |
| WarmPoolCalls.ReleasedClaimIsRejected | src/core/agents/agent-manager.ts:574-578 | a claim being released has its destroy call in flight, which may settle as soon as no continuation is ready, and is rejected when it settles either way |
| WarmPoolCalls.RejectedClaimSpawnsFresh | src/core/agents/agent-manager.ts:586-606 | the caller of a rejected claim gets a fresh spawn from the runtime resolved at that moment exactly when the agent is installed and can be fingerprinted, else the not-installed error |
| WarmPoolCalls.FailedClaimIsNeverPooled | src/core/agents/agent-manager.ts:565-606 | on every run after a failed claim its call is still waiting, or was answered by a fresh spawn or the error, never from the pool |
| WarmPoolTheorems.ClosingIsFinal | src/core/agents/agent-manager.ts:451-479 | from a closing state, on every run: still closing, no retry or expiry timer armed, at most the prewarm in flight yields a process, an empty idle slot stays empty |
| WarmPoolTheorems.LateProcessGoesToCleanup | src/core/agents/agent-manager.ts:396-418 | a process that a prewarm yields after closing goes to cleanup and nowhere else |
| WarmPoolTheorems.ShutdownAttempts | src/core/agents/agent-manager.ts:454-472 | a running shutdown never waits for a fourth cleanup; after fewer than three failed ones the slot is empty and every process accounted for |
| WarmPoolCalls.ShutdownTriesThreeTimes | src/core/agents/agent-manager.ts:451-472 | on every run a shutdown begins at most three cleanup attempts; when they are over either three began and failed, or the slot is empty and every process was handed out or destroyed |
| WarmPoolCalls.DestroyWarmPurges | src/core/agents/agent-manager.ts:430-448 | once destroyWarm has returned, on every run after it no prewarm begun before the call is in flight and no process spawned before the return is ready or being claimed |
| WarmPoolCalls.IdleDestroyWarmPurges | src/core/agents/agent-manager.ts:430-448 | the same for a call that finds nothing to wait for |
| WarmPoolCalls.DestroyingMeansNotReady | src/core/agents/agent-manager.ts:435-448 | a destroyWarm call that waits for anything but a claim sees no ready and no claimed process |
| WarmPoolRuns.ReadyProcessExpires | src/core/agents/agent-manager.ts:261-278 | in every reachable state a ready process has its expiry timer armed for itself and the current generation |
| WarmPoolRuns.StepMoves | src/core/agents/agent-manager.ts:175-607 | no step gives up a cleanup, lets an old process back into the slot or begins a prewarm of an earlier generation |
| WarmPoolRuns.StepLeaves | src/core/agents/agent-manager.ts:343-607 | a step leaves every suspended call alone that it does not address, or wakes it by what it waits for |
| WarmPoolTheorems.StatusNamesSlot | src/core/agents/agent-manager.ts:280-313 | the status names the process in the slot whenever there is one, and cleanup attempts exactly while a cleanup owns it |
| WarmPoolOwnership.ReachableIsOwned | src/core/agents/agent-manager.ts:207-607 | ownership, evidence for every hand-over and the pool invariant hold in every reachable state |
| WarmPoolOwnership.StepKeepsOwned | src/core/agents/agent-manager.ts:207-607 | every step of every interleaving keeps ownership and invariant |
| WarmPoolInvariant.StepKeepsInv | src/core/agents/agent-manager.ts:175-607 | the inductive invariant of slot, cleanup record, claim, prewarm, timers and suspended calls is kept by every enabled event |
| AgentManagement.AgentManager.GetWarmPoolResourceStatus | src/core/agents/agent-manager.ts:280-313 | reports the state, the entry that supplies agent and lifetime, and the cleanup attempts |
| AgentManagement.AgentManager.ScheduleWarmCleanupRetry | src/core/agents/agent-manager.ts:185-200 | arms the retry only for the current failed record, below three attempts, while not closing |
| AgentManagement.AgentManager.BeginWarmCleanup | src/core/agents/agent-manager.ts:207-259 | shares a pending destroy, refuses another entry, or begins an attempt on the one record of the slot |
| AgentManagement.AgentManager.OnDestroySettled | src/core/agents/agent-manager.ts:235-256 | settlement, finally and waking of awaiters as one step |
| AgentManagement.AgentManager.Prewarm | src/core/agents/agent-manager.ts:343-380 | drops, matches, replaces or spawns, exactly as the state machine steps |
| AgentManagement.AgentManager.OnSubprocessSpawned | src/core/agents/agent-manager.ts:381-427 | accepts the process only if it is still wanted, otherwise cleans it up |
| AgentManagement.AgentManager.TakeWarm | src/core/agents/agent-manager.ts:491-542 | the six mismatch branches and the claim |
| AgentManagement.AgentManager.Spawn | src/core/agents/agent-manager.ts:554-606 | claims the warm entry or spawns afresh |
| AgentManagement.AgentManager.OnClaimAnswered | src/core/agents/agent-manager.ts:565-579 | hands the process over or releases it to cleanup |
| AgentManagement.AgentManager.DestroyWarm | src/core/agents/agent-manager.ts:435-448 | invalidates, waits for prewarm and claim, then cleans the slot |
| AgentManagement.AgentManager.ShutdownWarmPool | src/core/agents/agent-manager.ts:451-479 | closes once and runs the attempts |
| AgentManagement.AgentManager.OnExpiry | src/core/agents/agent-manager.ts:264-276 | cleans up only the entry and generation it was armed for |
| AgentManagement.AgentManager.OnRetry | src/core/agents/agent-manager.ts:194-198 | retries only the current failed record |
| AgentManagement.AgentManager.RunSchedule | src/core/agents/agent-manager.ts:175-607 | delivers exactly the events that are enabled when their turn comes, ends in the state after that run, and keeps every process in one place |
| AgentSwitchTheorems.ThreeOutcomes | src/core/agent-switch-handler.ts:111-399 | for every failure pattern and every interference: a session that is still live runs and records the new agent with the old one appended to its history, or runs and records the old agent with its history and first agent; otherwise it is gone or failed without a bridge; the exception is exactly a finished session |
| AgentSwitchTheorems.SwitchKeeps | src/core/agent-switch-handler.ts:99-399 | outcome by outcome: process running, actions published, record with prompt count 0 after a commit and with the earlier count after a rollback, untouched for a refused switch |
| AgentSwitchTheorems.NothingAfterTheEnd | src/core/agent-switch-handler.ts:290-343 | once the session is terminating or replaced nothing is bridged and no success announced, and a terminating one keeps no bridge and shows no actions; a failure is announced after the end exactly when the outcome is a failed cleanup of a session that is gone, and then only if it had bridges |
| AgentSwitchTheorems.StaleLeasesStayUnbridged | src/core/agent-switch-handler.ts:64-93 | an adapter whose binding changed after the capture is never bridged again by this switch |
| AgentSwitchTheorems.CurrentLeasesAreBridged | src/core/agent-switch-handler.ts:277-335 | after a commit or completed rollback of a session that had bridges every captured adapter with a current lease is bridged |
| AgentSwitchTheorems.CaptureCovers | src/core/agent-switch-handler.ts:64-79 | the capture takes one current lease per attached adapter, and throws exactly when one of them has no thread |
| AgentSwitchAdmission.SwitchIsAdmittedExactly | src/core/agent-switch-handler.ts:111-133 | exactly when a switch is refused as not found, not installed, already using or blocked by the middleware, and when it stops because the session ended while that was asked; a refused switch leaves everything as other code left it |
| AgentSwitchAdmission.AdmittedSwitchCaptures | src/core/agent-switch-handler.ts:141-161 | a switch let through announces its start and captures one lease for each adapter attached then, with thread and generation, and whether there were bridges; it stops there exactly when one has no thread |
| AgentSwitchOrder.ActionsStayHidden | src/core/agent-switch-handler.ts:155-289 | whatever runs beside it, agent actions are hidden while adapters are cleaned and while the new bridges connect, and shown when the old bridges connect again after a failure |
| AgentSwitchOrder.RollbackRestoresBeforeBridging | src/core/agent-switch-handler.ts:314-335 | once a rollback has connected a bridge, runtime and record already name the old agent with its history and prompt count, even if the rollback fails later |
| AgentSwitchTheorems.CommitKeeps | src/core/agent-switch-handler.ts:230-289 | a commit leaves runtime and record on the new agent, bridges restored; an aborted one leaves a history with one more entry, and a record that changed only after every current captured adapter was bridged |
| AgentSwitchTheorems.OneSwitchAtATime | src/core/agent-switch-handler.ts:99-109 | an attempt is refused exactly while another runs, changes nothing then, and the lock is free afterwards on every path |
| AgentSwitchTheorems.RollbackKeeps | src/core/agent-switch-handler.ts:314-336 | a completed rollback restores agent, history, first agent and prompt count in runtime and record |
| AgentSwitchTheorems.GiveUpKeeps | src/core/agent-switch-handler.ts:337-365 | after a double failure: terminated if the session is gone, an error if its status cannot fail, otherwise failed, terminated, without bridges, and the record as it was |
| AgentSwitchTheorems.FailedSwitchAgentLeavesTrace | src/core/sessions/session.ts:2207-2259 | a switchAgent that throws leaves the name but a longer history, contrary to the comment at lines 225-227 of the handler |
| AgentSwitchTheorems.DoubleFailureIsNotRecorded | src/core/agent-switch-handler.ts:346-362 | no switch changes the record status; a double failure leaves a failed, terminated session whose record does not say so |
| AgentSwitchSteps.SwitchAgentKeeps | src/core/sessions/session.ts:2207-2259 | installs the new identity with prompt count 0, or keeps the old name and id with the pushed entry |
| AgentSwitchSteps.RestoreAgentKeeps | src/core/sessions/session.ts:2262-2289 | undoes exactly the pushed entry and its prompt count |
| AgentSwitchSteps.PatchKeeps | src/core/sessions/session-manager.ts:834-920 | a patch that returns for a live session is in the record; one for a session that is gone never is |
| AgentSwitchSteps.TerminalStatusIsKept | src/core/sessions/session-manager.ts:834-920 | a patch replaces the identity and, if it carries one, the status, but changes nothing when it would overwrite a terminal status |
| AgentSwitchSteps.ReconnectKeeps | src/core/agent-switch-handler.ts:81-93 | a completed reconnection bridges every current lease, whatever a connection triggers, and disturbs no earlier one |
| AgentSwitchInvariant.ActKeeps | src/core/sessions/session.ts:1312-1350 | no action of other code breaks the log, lease and bridge invariants |
| AgentSwitchInvariant.AttachingBindsOne | src/core/sessions/session.ts:1331-1338 | attaching makes exactly the lease with the new thread and generation current and leaves other adapters alone |
| AgentSwitchInvariant.DetachingForgetsOne | src/core/sessions/session.ts:1340-1349 | detaching forgets the adapter and its thread under a new generation and leaves others alone |
| AgentSwitchInvariant.PauseKeeps | src/core/agent-switch-handler.ts:64-93 | giving up control keeps the invariants and leaves agent and record alone |
| AgentSwitchSchedules.LateFailureExactly | src/core/agent-switch-handler.ts:194-217 | a failed cleanup is announced after the end exactly when the session had bridges and a tick of one of their connections terminates or replaces it |
| AgentSwitchSchedules.ReconnectEnds | src/core/agent-switch-handler.ts:81-93 | a reconnection leaves the session live exactly when no tick of its connections ends it |
| AgentSwitchSchedules.CalmSwitchAnnouncesNothingLate | src/core/agent-switch-handler.ts:111-399 | a switch during which nothing terminates or replaces the session announces nothing after the end |
| AgentSwitchSchedules.RollbackBridgesExactly | src/core/agent-switch-handler.ts:314-336 | whatever runs beside it, a completed rollback leaves an attached adapter bridged exactly when it was bound anew since the bridges were dropped, or has a current captured lease and there were bridges |
| AgentSwitchSchedules.RolledBackBridgesExactly | src/core/agent-switch-handler.ts:290-336 | the same for every rolled back switch, counted from the announcement of the failure |
| AgentSwitchProgress.SmoothSwitchCommits | src/core/agent-switch-handler.ts:99-399 | without interference and failures the switch commits, and resumes the agent exactly when it was used before and supports it; every announcement, capture, cleanup call and connection in order, and the whole resulting session, record and bridges |
| AgentSwitchProgress.SmoothRollback | src/core/agent-switch-handler.ts:314-336 | an undisturbed rollback completes: session and record are the previous agent's under its new process id, actions shown, and exactly the adapters with a current captured lease bridged, if there were bridges |
| AgentSwitchProgress.OneFailureIsRecovered | src/core/agent-switch-handler.ts:290-336 | a failed commit followed by no further failure ends in that rollback |
| AgentSwitchProgress.FailedResumeFallsBack | src/core/agent-switch-handler.ts:233-273 | a failed resume falls back to a fresh agent with its context |
| AgentSwitchProgress.PreviousAgentIsRespawned | src/core/agent-switch-handler.ts:317-324 | in the rollback a failed resume falls back to a fresh previous agent |
| AgentSwitchProgress.FailedContextIsNoFailure | src/core/agent-switch-handler.ts:250-268 | a context that cannot be flushed does not keep the fresh agent from being spawned |
| AgentSwitchProgress.EndedPreparationStops | src/core/agent-switch-handler.ts:237-268 | a session that ends while its replacement is prepared gets none, and nothing more is waited for |
| AgentSwitchProgress.UndisturbedGiveUp | src/core/agent-switch-handler.ts:337-365 | giving up, undisturbed: the session is failed, loses its bridges and ends, in that order, and the record is waited for and left as it is |
| AgentSwitchProgress.CleanupTriesEverything | src/core/agent-switch-handler.ts:163-191 | undisturbed, exactly the cleanup calls that current, available adapters offer are made, the first way to retire action UI each has and then its session cleanup, whether or not others fail; each failed call and each missing adapter counts as one error |
| AgentSwitchProgress.SmoothReconnect | src/core/agent-switch-handler.ts:81-93 | undisturbed, a reconnection connects exactly the current leases, in order |
| AgentSwitchLimits.ReconnectStopsAtUnavailable | src/core/agent-switch-handler.ts:81-93 | undisturbed, a lease is bridged exactly when it is current and no current lease up to it lacks its adapter |
| AgentSwitchLimits.CleanupFailureStrandsLaterAdapters | src/core/agent-switch-handler.ts:194-217 | a run in which an unavailable adapter leaves a healthy one unbridged |
| AgentSwitchLimits.FailureAnnouncedAfterTheEnd | src/core/agent-switch-handler.ts:194-217 | a run that announces a failure right after the session ended |
| AgentSwitchLimits.FinishedSessionIsNotFailed | src/core/agent-switch-handler.ts:337-345 | a run in which session.fail throws and the session stays live |
| AgentSwitchLimits.DoubleFailureLeavesActiveRecord | src/core/agent-switch-handler.ts:337-365 | a run whose switch and rollback both fail: the session is failed and terminated, the record still active |
| AgentSwitchLimits.RollbackDropsNewBridges | src/core/agent-switch-handler.ts:316-335 | a run in which a rollback drops the bridge of an adapter attached before the failure |
| AgentSwitching.Session.AttachAdapterBinding | src/core/sessions/session.ts:1331-1338 | raises the generation, sets the thread, attaches once |
| AgentSwitching.Session.DetachAdapterBinding | src/core/sessions/session.ts:1340-1349 | raises the generation and forgets the binding, or reports that there was none |
| AgentSwitching.AgentSwitchHandler.AttachAdapter | src/core/core.ts:1425-1430 | the part after the wait for a thread: binds, again if another call already did, and bridges an adapter of a live session |
| AgentSwitching.AgentSwitchHandler.DetachAdapter | src/core/core.ts:1470-1479 | unbridges and unbinds |
| AgentSwitching.AgentSwitchHandler.Terminate | src/core/sessions/session-manager.ts:265-292 | the terminal boundary with its synchronous bridge release |
| AgentSwitching.AgentSwitchHandler.CaptureAttachmentLeases | src/core/agent-switch-handler.ts:64-79 | the loop over distinct adapters |
| AgentSwitching.AgentSwitchHandler.ReconnectCurrentAttachments | src/core/agent-switch-handler.ts:81-93 | the loop that bridges current leases |
| AgentSwitching.AgentSwitchHandler.DisconnectSessionBridges | src/core/core.ts:1518-1526 | drops all bridges and counts them |
| AgentSwitching.AgentSwitchHandler.CleanAttachments | src/core/agent-switch-handler.ts:163-191 | the cleanup loop and its error count |
| AgentSwitching.AgentSwitchHandler.PatchRecord | src/core/sessions/session-manager.ts:834-920 | waits for the lock, checks the session, saves |
| AgentSwitching.AgentSwitchHandler.CreateReplacement | src/core/agent-switch-handler.ts:232-274 | resume, else context and fresh spawn, with termination winning every race |
| AgentSwitching.AgentSwitchHandler.DestroyAgent | src/core/sessions/session.ts:2042-2060 | tears a process down once |
| AgentSwitching.AgentSwitchHandler.SwitchAgent | src/core/sessions/session.ts:2207-2259 | the provisional replacement |
| AgentSwitching.AgentSwitchHandler.RestoreAgentAfterFailedSwitch | src/core/sessions/session.ts:2262-2289 | the rollback replacement |
| AgentSwitching.AgentSwitchHandler.Commit | src/core/agent-switch-handler.ts:230-289 | steps 4 to 6 in order |
| AgentSwitching.AgentSwitchHandler.Rollback | src/core/agent-switch-handler.ts:314-336 | the rollback in order |
| AgentSwitching.AgentSwitchHandler.GiveUp | src/core/agent-switch-handler.ts:337-365 | the double failure |
| AgentSwitching.AgentSwitchHandler.AbandonCleanup | src/core/agent-switch-handler.ts:194-218 | the failed cleanup |
| AgentSwitching.AgentSwitchHandler.DoSwitch | src/core/agent-switch-handler.ts:111-133 | the admission checks and the middleware |
| AgentSwitching.AgentSwitchHandler.Proceed | src/core/agent-switch-handler.ts:135-228 | announcement, capture, disconnection, cleanup |
| AgentSwitching.AgentSwitchHandler.Switch | src/core/agent-switch-handler.ts:99-109 | the lock around the transaction; runtime and record agree after a commit or rollback |
| StoreMerge.MemoryFollowsDisk | src/core/agents/agent-store.ts:191-223 | after every call, successful or not, memory equals the file, except exactly when the lock is busy, the file unreadable or not movable, each reported as such: then neither changes |
| StoreMerge.RepliesAreExact | src/core/agents/agent-store.ts:99-223 | a call that sees the file does what the request wants under every key unless there is nothing to do, the revision is used up, an agent is malformed or the file cannot be written, reported in this order |
| StoreMerge.CommittedIsValid | src/core/agents/agent-store.ts:191-223 | whatever is committed satisfies the schema, has a revision JavaScript counts exactly and keeps the format version |
| StoreMerge.ReloadShowsFile | src/core/agents/agent-store.ts:77-84 | a reload shows the store the file, or an empty store when it is missing, damaged or unreadable |
| StoreMerge.NewStoreIsEmpty | src/core/agents/agent-store.ts:66-84 | a new store is empty until it loads |
| StoreMerge.ReloadedStoreInstallsDraft | src/core/agents/agent-store.ts:77-153 | a store that replaces its data right after a reload meets no conflict, and the file then holds exactly its draft |
| StoreMerge.MergeDecides | src/core/agents/agent-store.ts:130-153 | unchanged keys keep the current value, keys changed by the draft alone take its value or deletion, keys changed by both keep the current value and are reported |
| StoreMerge.MergePartitions | src/core/agents/agent-store.ts:137-150 | applied and conflicting keys partition the changed keys |
| StoreMerge.UncontendedMergeInstallsDraft | src/core/agents/agent-store.ts:130-153 | without another writer the merge installs exactly the draft |
| StoreMerge.DisjointMergesCommute | src/core/agents/agent-store.ts:130-153 | drafts of one base with disjoint changes give the same result and the same applied keys in either order |
| StoreMerge.AgreeingWritersConflict | src/core/agents/agent-store.ts:140-143 | equal concurrent changes are still reported as a conflict |
| StoreMerge.BusyStoreStaysStale | src/core/agents/agent-store.ts:194-223 | a run in which a busy store keeps data the file no longer holds |
| StoreMerge.FaultlessCallsTakeEffect | src/core/agents/agent-store.ts:99-153 | without faults, and even over a damaged file, an agent is added, an expected one removed, and every uncontested change of a draft applied |
| StoreMerge.RevisionCountsCommits | src/core/agents/agent-store.ts:191-223 | a committed call raises the revision by exactly one, counting a damaged file as empty; any other leaves the file alone or has moved a damaged one away |
| StoreMerge.NoLostUpdate | src/core/agents/agent-store.ts:130-153 | a committed value is replaced only if the writer's base held exactly that value |
| StoreMerge.OtherKeysKept | src/core/agents/agent-store.ts:99-117 | add and remove touch their own key only, a guarded removal only the expected value |
| StoreMerge.RevisionsIdentifyVersions | src/core/agents/agent-store.ts:191-223 | in every run of any number of stores the revision counts the commits, and stores with the same revision hold the same data |
| StoreMerge.RunsLoseNoUpdate | src/core/agents/agent-store.ts:130-223 | in every run a reconciliation overwrites nothing its store had not loaded |
| AgentStorage.AgentStore.Load | src/core/agents/agent-store.ts:77-84 | the file's data, or empty when it is missing, unreadable or invalid |
| AgentStorage.AgentStore.FindChangedKeys | src/core/agents/agent-store.ts:131-136 | the deletion loop leaves exactly the changed keys |
| AgentStorage.AgentStore.MergeDraft | src/core/agents/agent-store.ts:139-149 | the loop over changed keys computes the merge in whatever order the keys come |
| AgentStorage.AgentStore.UpdateUnderLock | src/core/agents/agent-store.ts:191-223 | every path of the locked update: data, file and reply |
| AgentStorage.AgentStore.AddAgent | src/core/agents/agent-store.ts:99-105 | the added agent is what memory holds after a commit |
| AgentStorage.AgentStore.RemoveAgent | src/core/agents/agent-store.ts:107-117 | reports a removal exactly when it committed |
| AgentStorage.AgentStore.ReplaceInstalled | src/core/agents/agent-store.ts:130-153 | the merge result, and applied keys hold the draft's values |
| RegistryReconciliation.EnrichImproves | src/core/agents/agent-catalog.ts:474-544 | a decision never lowers a version, keeps a pinned runner pinned, never drops an environment entry, and leaves what runs untouched unless the runner was truthful, so binary and custom agents keep version, command, args and env |
| RegistryReconciliation.ComparableRunnersCatchUp | src/core/agents/agent-catalog.ts:474-543 | the whole decision about an npx or uvx agent whose entry offers the same: skipped unless both sides are pinned and comparable; behind, it gets the runner's command, the package with all its arguments, the entry's environment under its own, version, name and id; level, name and id; ahead, nothing |
| RegistryReconciliation.OtherAgentsKeepWhatTheyRun | src/core/agents/agent-catalog.ts:474-543 | the decision about every other listed agent: npx before uvx before the platform's binary; skipped when the distributions differ or binary versions cannot be compared, renamed when level, else untouched |
| RegistryReconciliation.UnlistedAgentsStay | src/core/agents/agent-catalog.ts:474-482 | an agent without an entry is left alone |
| RegistryReconciliation.ReconcileReports | src/core/agents/agent-catalog.ts:545-589 | the status a pass leaves: how many agents it skipped and the last reason, and whether its changes could not be written or how many gave way to others |
| RegistryReconciliation.SkippedExactlyWhenIncomparable | src/core/agents/agent-catalog.ts:484-506 | a runner is skipped and reported exactly when its entry fits the platform but cannot be compared safely |
| RegistryReconciliation.UpdatesAreChanges | src/core/agents/agent-catalog.ts:509-543 | what counts as an update differs from what was installed, and conversely |
| RegistryReconciliation.AliasAgreesWithId | src/core/agents/agent-catalog.ts:475-477 | with unique ids the entry found by alias is found again by its id |
| RegistryReconciliation.EnrichIsIdempotent | src/core/agents/agent-catalog.ts:474-544 | a second look at the same registry changes nothing and skips for the same reason |
| RegistryReconciliation.EmptyIdNeverSettles | src/core/agents/agent-catalog.ts:515-538 | an entry with an empty id would be reported as changed by every pass |
| RegistryReconciliation.EnrichAllIsIdempotent | src/core/agents/agent-catalog.ts:463-559 | the same for a whole pass, including which agents it skips |
| RegistryReconciliation.PassesNeverLower | src/core/agents/agent-catalog.ts:463-544 | any number of passes over changing registries never lowers a version nor unpins a runner |
| RegistryReconciliation.ReconcileImprovesFile | src/core/agents/agent-catalog.ts:561-585 | under concurrent writers each agent in the file is kept, or replaced by the decision for exactly that agent; no key comes or goes and no version falls |
| RegistryReconciliation.PendingMeansUnwritten | src/core/agents/agent-catalog.ts:561-589 | nothing pending means that every change of the pass is in the file; only a pass with changes leaves anything pending |
| RegistryReconciliation.SecondPassChangesNothing | src/core/agents/agent-catalog.ts:463-590 | after an undisturbed pass the next one changes neither store, file nor skip count |
| RegistryReconciliation.ValidationKeepsFirsts | src/core/agents/agent-catalog.ts:725-742 | of each id the first valid entry is kept, in the order of the input |
| RegistryReconciliation.ValidatedIdsAreUnique | src/core/agents/agent-catalog.ts:725-742 | validated registries have unique, non-empty ids and lose no valid id |
| AgentCataloging.ValidateRegistryAgents | src/core/agents/agent-catalog.ts:725-742 | keeps the first valid entry of each id and counts all others |
| AgentCataloging.AgentCatalog.EnrichOne | src/core/agents/agent-catalog.ts:475-543 | one round of the loop, branch by branch |
| AgentCataloging.AgentCatalog.EnrichDraft | src/core/agents/agent-catalog.ts:474-544 | the loop enriches every agent and tracks changes, skip count and last reason |
| AgentCataloging.AgentCatalog.EnrichInstalledFromRegistry | src/core/agents/agent-catalog.ts:463-590 | status, merge and pending diagnostics |
| MessageSplitting.SplitReassembles | src/core/adapter-primitives/format-utils.ts:44-90 | for every text and limit of at least 1 the text is the chunks in order separated or followed by newlines only; no chunk of a non-empty text is empty, and no later one starts with a newline |
| MessageSplitting.ChunksAreBounded | src/core/adapter-primitives/format-utils.ts:54-84 | no chunk is longer than twice the limit |
| MessageSplitting.LimitsThatHold | src/core/adapter-primitives/format-utils.ts:54-69 | without fence extensions every chunk of every text keeps to the limit exactly when the limit is at most 3 or at least 855 |
| MessageSplitting.UnextendedChunksFit | src/core/adapter-primitives/format-utils.ts:54-69 | the positive half, per text |
| MessageSplitting.BoundaryIsLastBreak | src/core/adapter-primitives/format-utils.ts:54-69 | the boundary is the last paragraph break at least a fifth of the limit from the start and within reach, else the last such line break, else the reach: the limit, or 300 behind the middle of a text less than 1.3 times as long |
| MessageSplitting.ExtensionIsDueExactly | src/core/adapter-primitives/format-utils.ts:71-84 | a chunk ends at its boundary unless an odd number of fences comes before it and the line of the next fence ends within twice the limit: then it ends there |
| MessageSplitting.NoFenceNoExtension | src/core/adapter-primitives/format-utils.ts:76-77 | without a further fence it ends at its boundary |
| MessageSplitting.FirstChunkEndsAtSplitPoint | src/core/adapter-primitives/format-utils.ts:44-90 | a message within the limit is one chunk; of a longer one the first chunk ends at the split point, the newlines after it are dropped and the rest is split the same way |
| MessageSplitting.LongestSmallRest | src/core/adapter-primitives/format-utils.ts:56-69 | for each limit from 4 to 854 a text whose first chunk is too long |
| MessageSplitting.ExtensionClosesFence | src/core/adapter-primitives/format-utils.ts:71-84 | an extended chunk ends with the line of the next fence, within twice the limit, and its fences balance unless one straddles the boundary |
| MessageSplitting.NextFenceCounts | src/core/adapter-primitives/format-utils.ts:73-75 | the next fence after a stretch that none straddles adds one to the count |
| MessageSplitting.NoFenceCountsNothing | src/core/adapter-primitives/format-utils.ts:73-75 | a stretch without a fence has none to count |
| MessageSplitting.ZeroLimitStandsStill | src/core/adapter-primitives/format-utils.ts:48-88 | a limit of zero makes no progress |
| MessageSplitting.SplitMessage | src/core/adapter-primitives/format-utils.ts:44-90 | the loop computes the split and terminates |
| SkillPacking.PackKeepsLines | src/core/agents/agent-action-policy.ts:147-158 | the newline-join of the chunks is that of the names; no chunk is empty or over 4000 characters |
| SkillPacking.PackUsesFewestChunks | src/core/agents/agent-action-policy.ts:147-158 | no division of the names, in order, into chunks within the limit has fewer chunks |
| SkillPacking.GreedyIsShortest | src/core/agents/agent-action-policy.ts:149-157 | the same from any group under way |
| SkillPacking.SafeNamesAreFirst | src/core/agents/agent-action-policy.ts:136-141 | exactly the first valid name of each folded key is kept |
| SkillPacking.SafeNameExactly | src/core/agents/agent-action-policy.ts:125-140 | a name is accepted exactly when it is what trimming leaves of a string, 1 to 96 units long, matching the pattern and with a non-empty key |
| SkillPacking.ResponseLinesAreNames | src/core/agents/agent-action-policy.ts:135-142 | the lines are exactly the first names for each key among the first 256 entries, each once, in collation order |
| SkillPacking.ResponseIsComplete | src/core/agents/agent-action-policy.ts:135-160 | the whole response: those names unbroken in chunks of at most 4000 units, as few as any division needs, or the fixed message when there are none |
| SkillPacking.SortNamesSorts | src/core/agents/agent-action-policy.ts:142 | the lines are a permutation in collation order |
| SkillPacking.SortIsStable | src/core/agents/agent-action-policy.ts:142 | names that collation does not tell apart stay in their order |
| SkillPacking.CollectNames | src/core/agents/agent-action-policy.ts:136-141 | the loop that fills the map |
| SkillPacking.PackLines | src/core/agents/agent-action-policy.ts:147-158 | the packing loop |
| SkillPacking.BuildSkillsControlResponse | src/core/agents/agent-action-policy.ts:135-160 | collect, sort, pack; a fixed message for no names |
| LineDiff.ComputeLineDiff | src/core/message-transformer.ts:23-48 | a real single-block edit with both counts minimal; both zero exactly for equal texts; their difference is that of the line counts; the clamps never act |
| LineDiff.SmallestEditCounts | src/core/message-transformer.ts:44-47 | consequences of minimality for the two counts |
| LineDiff.LongestEndsLeaveSmallestBlock | src/core/message-transformer.ts:27-42 | longest prefix and suffix without overlap leave a block no other edit undercuts |
| LineDiff.JoinUndoesSplit | src/core/message-transformer.ts:24-25 | splitting into lines loses nothing |
| LineDiff.LinesAreUnbroken | src/core/message-transformer.ts:24-25 | no line holds a newline |
| LineDiff.LinesFollowNewlines | src/core/message-transformer.ts:24-25 | the empty text has no lines, any other one more than it has newlines |
| ToolEvents.EntryFollowsLog | src/core/adapter-primitives/stream-accumulator.ts:51-102 | for every log and id: the entry is its last call's base, then the newest early update if it was the first call of the turn, then every later update in order; otherwise the newest update waits |
| ToolEvents.CallMakesEntry | src/core/adapter-primitives/stream-accumulator.ts:51-69 | a call that nothing waits for makes an entry with the call's own data, no content, no statistics, and status running unless it says otherwise |
| ToolEvents.FieldsHoldLastDefined | src/core/adapter-primitives/stream-accumulator.ts:104-118 | each optional field holds its last defined value; what updates cannot carry stays |
| ToolEvents.NeverBoth | src/core/adapter-primitives/stream-accumulator.ts:44-102 | no id is both an entry and pending |
| ToolEvents.OneEarlyUpdateIsHarmless | src/core/adapter-primitives/stream-accumulator.ts:70-75 | in any state in which the id is unknown, one early update gives the same state as one that arrives in time |
| ToolEvents.SecondEarlyUpdateWins | src/core/adapter-primitives/stream-accumulator.ts:51-102 | of two updates that arrive before their call only the second is applied |
| ToolEvents.EarlierUpdateMatters | src/core/adapter-primitives/stream-accumulator.ts:94-97 | in any such state, two early updates leave what they would have left in time exactly when everything the first says is said by the second or by the call |
| ToolEvents.EarlyOutputIsLost | src/core/adapter-primitives/stream-accumulator.ts:94-97 | a log in which the output of the first early update never reaches the entry |
| ToolState.ToolStateMap.Upsert | src/core/adapter-primitives/stream-accumulator.ts:51-78 | stores a fresh object and leaves the one it supersedes alone |
| ToolState.ToolStateMap.Merge | src/core/adapter-primitives/stream-accumulator.ts:84-102 | updates the stored object in place, or buffers the update |
| ToolState.ToolStateMap.ApplyUpdate | src/core/adapter-primitives/stream-accumulator.ts:104-118 | assigns the defined fields only |
| ToolState.ToolStateMap.Get | src/core/adapter-primitives/stream-accumulator.ts:121-123 | what a caller reads is what the log adds up to |
| ToolState.ToolStateMap.Clear | src/core/adapter-primitives/stream-accumulator.ts:126-129 | a new turn starts empty |

## Left out

- Subprocesses, the ACP protocol and AgentInstance internals: spawn, claim, resume and destroy are steps that succeed or fail.
- Real time: lifetimes are compared as numbers, expiry and retry timers are armed or not and fire at any moment; delays and backoff lengths are not modelled.
- Microtasks: in the warm pool a settlement, its `finally` and the waking of its awaiters are one step, and timers and I/O wait until no woken call is left.
- WarmPoolTheorems.PooledProcessMatchesRequest, like the theorems of WarmPoolDecisions: compares what definition and environment mean under the assumption that the catalog and the environment filter hand over plain records.
- Numbers in canonical JSON are represented by the text that `JSON.stringify` prints for them; sparse arrays and `toJSON` methods do not occur in agent definitions.
- Route and proxy policy content: only the policy generation is modelled.
- Session, bridge and session manager beyond the parts the switch relies on: prompt queue, permissions, elicitation, commands, terminal delivery and admission.
- AgentSwitchTheorems.ThreeOutcomes: assumes that no other code writes the record's agent identity while the switch runs, and that a session which was replaced is not registered again.
- AgentSwitchTheorems.StaleLeasesStayUnbridged: bindings change only through attach and detach, which raise the generation; the deprecated `threadId` setter, used when a session is created, does not.
- Event listeners of the switch run without changing the session; `connect` may run any other code.
- Conversation context injected into a fresh agent, allowed paths and the `agent:afterSwitch` hook have no effect on the modelled state.
- A late replacement process that settles after the session terminated: the session tears it down in the background; it is not counted here.
- Prompt counts that bridges write to the record on their own are not part of the record's modelled content.
- The store's file system: temporary files, fsync, rename, quarantine names and stale locks; one atomic write under a mutual exclusion lock remains, with flags for a busy lock, an unreadable file, a failed quarantine and a failed write.
- StoreMerge.RevisionsIdentifyVersions: excludes a file that is corrupt from the start, whose quarantine restarts the revision at zero.
- AgentManagement.AgentManager.GetWarmPoolResourceStatus: does not render the timestamps, which follow from the entry, and has no `lastError` text.
- The order of `appliedKeys` and `conflictKeys`, which follows property order; they are sets here. Keys that name inherited object properties are not treated specially.
- Explicitly undefined optional fields of an installed agent count as absent.
- Version parsing of npm and PEP 440, package specifiers and the alias table: an ecosystem with any comparison whose comparable versions are reflexively equal and whose order is transitive.
- Registry download, cache and entry validation details: any validity test that implies a non-empty id.
- The comparisons with `maxLength * 1.3` and `maxLength * 0.2` are exact integer comparisons; they agree with double precision for every length a string can have.
- Trimming, the skill name pattern, lower-casing and collation are arbitrary functions; collation is a total preorder.
- Tool inputs and viewer links are opaque values; the noise rule is an arbitrary function.
- `ThoughtBuffer`, the other formatters, command normalisation, the transformer's caches, CLI, plugins and adapters.
