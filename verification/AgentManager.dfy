/**
 AgentManager's warm pool as the class the source writes: fields that methods
 update step by step. Each method is one step of the pool and is proved to take
 `View()` where the state machine of WarmPool says. `tasks` and `operations`
 stand for the promises and callbacks that the JavaScript runtime keeps.
 */
module AgentManagement {
  import opened JsText
  import opened Wrappers
  import opened WarmPool
  import opened WarmPoolOwnership
  import F = Fingerprint

  class AgentManager {
    var warmEntry: Option<Entry>
    var warming: Option<Warming>
    var warmExpiryTimer: Option<Expiry>
    var warmGeneration: nat
    var warmPoolClosing: bool
    var warmCleanup: Option<Cleanup>
    var warmClaiming: Option<Entry>
    var warmClaimOperation: Option<Id>
    var warmShutdownOperation: Option<Id>
    var operations: map<Id, Operation>
    var retryTimers: set<Id>
    var tasks: map<Id, Task>
    var nextId: Id
    var nextPid: Pid
    var handed: map<Pid, Handover>
    var destroyed: set<Pid>
    var outcomes: map<Id, Outcome>

    function View(): Pool
      reads this
    {
      Pool(warmEntry, warming, warmExpiryTimer, warmGeneration, warmPoolClosing, warmCleanup, warmClaiming,
           warmClaimOperation, warmShutdownOperation, operations, retryTimers, tasks, nextId, nextPid, handed,
           destroyed, outcomes)
    }

    constructor ()
      ensures View() == EMPTY && Reachable(View())
    {
      warmEntry, warming, warmExpiryTimer := None, None, None;
      warmGeneration, warmPoolClosing := 0, false;
      warmCleanup, warmClaiming, warmClaimOperation, warmShutdownOperation := None, None, None, None;
      operations, retryTimers, tasks := map[], {}, map[];
      nextId, nextPid := 0, 0;
      handed, destroyed, outcomes := map[], {}, map[];
      new;
      assert Run(EMPTY, [], View());
    }

    /** The reported state, the entry it names, and the attempts of that entry's cleanup. */
    method GetWarmPoolResourceStatus() returns (status: Status, entry: Option<Entry>, cleanupAttempts: Option<nat>)
      ensures status == ResourceStatus(View())
      ensures (entry, cleanupAttempts) == Reported(View())
    {
      entry, cleanupAttempts := None, None;
      var cleanup := warmCleanup;
      if cleanup.Some? && warmEntry == Some(cleanup.value.entry) {
        status := if cleanup.value.state.Pending? then CleanupPending else CleanupFailed;
        entry, cleanupAttempts := Some(cleanup.value.entry), Some(cleanup.value.attempts);
      } else if warmClaiming.Some? {
        status, entry := ClaimingNow, warmClaiming;
      } else if warmPoolClosing {
        status := Closing;
      } else if warmEntry.Some? {
        status, entry := Ready, warmEntry;
      } else {
        status := if warming.Some? then WarmingUp else Empty;
      }
    }

    // ---------- Cleanup ----------

    method ClearWarmExpiryTimer()
      modifies this
      ensures View() == ClearExpiry(old(View()))
    {
      warmExpiryTimer := None;
    }

    method ScheduleWarmCleanupRetry(cleanup: Id)
      modifies this
      ensures View() == ScheduleRetry(old(View()), cleanup)
    {
      if warmPoolClosing || warmCleanup.None? || warmCleanup.value.id != cleanup || warmCleanup.value.state != Failed
         || warmCleanup.value.attempts >= WARM_CLEANUP_MAX_ATTEMPTS
      {
        return;
      }
      retryTimers := retryTimers - {cleanup};
      retryTimers := retryTimers + {cleanup};
    }

    method BeginWarmCleanup(entry: Entry, scheduleRetry: bool) returns (operation: Option<Id>)
      modifies this
      ensures (View(), operation) == BeginCleanup(old(View()), entry, scheduleRetry)
    {
      var existing := warmCleanup;
      if existing.Some? && existing.value.entry == entry && existing.value.state == Pending && existing.value.operation.Some? {
        return existing.value.operation;
      }
      if existing.Some? && existing.value.entry != entry {
        return None;
      }
      var cleanup := if existing.Some? then existing.value else Cleanup(nextId, entry, Failed, 0, None);
      retryTimers := retryTimers - {cleanup.id};
      cleanup := cleanup.(state := Pending);
      cleanup := cleanup.(attempts := cleanup.attempts + 1);
      var op := nextId + 1;
      operations := operations[op := Operation(cleanup.id, entry, scheduleRetry)];
      nextId := nextId + 2;
      warmCleanup := Some(cleanup.(entry := entry, operation := Some(op)));
      operation := Some(op);
    }

    method ConfirmDestroyed(op: Id)
      requires op in operations
      modifies this
      ensures View() == DestroyConfirmed(old(View()), op)
    {
      var entry, cleanup := operations[op].entry, operations[op].cleanup;
      if warmEntry == Some(entry) {
        warmEntry := None;
      }
      if warmClaiming == Some(entry) {
        warmClaiming := None;
      }
      if warmCleanup.Some? && warmCleanup.value.id == cleanup {
        warmCleanup := None;
      }
      destroyed := destroyed + {entry.pid};
      operations := operations - {op};
    }

    method RecordDestroyFailure(op: Id)
      requires op in operations
      modifies this
      ensures View() == DestroyFailed(old(View()), op)
    {
      var cleanup, scheduleRetry := operations[op].cleanup, operations[op].scheduleRetry;
      operations := operations - {op};
      if warmCleanup.None? || warmCleanup.value.id != cleanup {
        return;
      }
      warmCleanup := Some(warmCleanup.value.(state := Failed));
      if scheduleRetry {
        ScheduleWarmCleanupRetry(cleanup);
      }
      warmCleanup := Some(warmCleanup.value.(operation := None));
    }

    /** instance.destroy() settles. */
    method OnDestroySettled(op: Id, ok: bool)
      requires op in operations
      modifies this
      ensures View() == SettleCleanup(old(View()), op, ok)
    {
      if ok {
        ConfirmDestroyed(op);
      } else {
        RecordDestroyFailure(op);
      }
      if warming == Some(Discarding(op)) {
        warming := Some(Settled);
      }
      tasks := map id | id in tasks :: WakeOnCleanup(tasks[id], op, ok);
    }

    // ---------- Prewarm ----------

    method Prewarm(request: Request, w: World)
      modifies this
      ensures View() == WarmPool.Prewarm(old(View()), request, w)
    {
      if warmPoolClosing {
        return;
      }
      if warming.Some? || warmClaiming.Some? || warmCleanup.Some? {
        return;
      }
      var fingerprint := ResolveWarmRuntime(w, request);
      if fingerprint.None? {
        return;
      }
      if warmEntry.Some? {
        var e := warmEntry.value;
        var samePaths := F.PathListsEqual(e.request.allowedPaths, request.allowedPaths);
        if e.request.agentName == request.agentName && e.request.workingDir == request.workingDir
           && samePaths && e.fingerprint == fingerprint.value
        {
          return;
        }
        ClearWarmExpiryTimer();
        var operation := BeginWarmCleanup(e, true);
        tasks := tasks[nextId := Redo(request, operation, if operation.Some? then None else Some(false))];
        nextId := nextId + 1;
        return;
      }
      warming := Some(Spawning(request, w.resolved.value, fingerprint.value, w.policyGeneration, warmGeneration));
    }

    method FinishPrewarm()
      modifies this
      ensures View() == FinishWarming(old(View()))
    {
      warming := None;
      tasks := map id | id in tasks :: WakeOnWarming(tasks[id]);
    }

    method DiscardWarmCandidate(entry: Entry)
      modifies this
      ensures View() == DiscardCandidate(old(View()), entry)
    {
      hide BeginCleanup, FinishWarming;
      nextPid := nextPid + 1;
      warmEntry := Some(entry);
      var operation := BeginWarmCleanup(entry, !warmPoolClosing);
      if operation.Some? {
        warming := Some(Discarding(operation.value));
      } else {
        FinishPrewarm();
      }
    }

    method AcceptWarmCandidate(entry: Entry)
      modifies this
      ensures View() == AcceptCandidate(old(View()), entry)
    {
      nextPid := nextPid + 1;
      warmEntry := Some(entry);
      warmExpiryTimer := Some(Expiry(entry, warmGeneration));
      FinishPrewarm();
    }

    /** The awaited AgentInstance.spawnSubprocess settles. */
    method OnSubprocessSpawned(ok: bool, w: World)
      requires warming.Some? && warming.value.Spawning?
      modifies this
      ensures View() == SpawnSettled(old(View()), ok, w)
    {
      hide DiscardCandidate, AcceptCandidate, F.CreateDefinitionFingerprint;
      if !ok {
        FinishPrewarm();
        return;
      }
      var p := warming.value;
      var entry := Entry(nextPid, p.request, p.runtime, w.now, p.policyGeneration, p.fingerprint);
      var currentRuntime := ResolveWarmRuntime(w, p.request);
      var lifecycleInvalidated := warmPoolClosing || warmGeneration != p.generation || w.policyGeneration != p.policyGeneration;
      if lifecycleInvalidated || currentRuntime != Some(entry.fingerprint) {
        DiscardWarmCandidate(entry);
      } else {
        AcceptWarmCandidate(entry);
      }
    }

    // ---------- Spawn ----------

    method TakeWarm(request: Request, w: World) returns (taken: bool)
      modifies this
      ensures (View(), taken) == WarmPool.TakeWarm(old(View()), request, w)
    {
      if warmEntry.None? || warmCleanup.Some? || warmClaiming.Some? {
        return false;
      }
      var entry := warmEntry.value;
      if entry.request.agentName != request.agentName || entry.request.workingDir != request.workingDir {
        return false;
      }
      var reject := false;
      if entry.policyGeneration != w.policyGeneration {
        reject := true;
      } else {
        var samePaths := F.PathListsEqual(entry.request.allowedPaths, request.allowedPaths);
        if !samePaths {
          reject := true;
        } else {
          var currentRuntime := ResolveWarmRuntime(w, request);
          if currentRuntime != Some(entry.fingerprint) {
            reject := true;
          } else if w.now - entry.createdAt > WARM_TTL_MS {
            reject := true;
          } else if w.dead {
            reject := true;
          }
        }
      }
      ClearWarmExpiryTimer();
      if reject {
        var _ := BeginWarmCleanup(entry, true);
        return false;
      }
      warmClaiming := Some(entry);
      taken := true;
    }

    method Spawn(request: Request, w: World)
      modifies this
      ensures View() == WarmPool.Spawn(old(View()), request, w)
    {
      var candidate := warmEntry;
      var taken := TakeWarm(request, w);
      if taken {
        tasks := tasks[nextId := Claim(candidate.value, request, w, Calling)];
        warmClaimOperation := Some(nextId);
      } else {
        outcomes := outcomes[nextId := FreshOutcome(w, request)];
      }
      nextId := nextId + 1;
    }

    /** The awaited claimForSession settles. */
    method OnClaimAnswered(id: Id, ok: bool, w: World)
      requires id in tasks && tasks[id].Claim? && tasks[id].phase.Calling?
      modifies this
      ensures View() == ClaimSettled(old(View()), id, ok, w)
    {
      hide F.CreateDefinitionFingerprint, ResolveWarmRuntime;
      var t := tasks[id];
      if ok && ResolveWarmRuntime(w, t.request) == Some(t.entry.fingerprint) {
        if warmEntry == Some(t.entry) {
          warmEntry := None;
        }
        if warmClaiming == Some(t.entry) {
          warmClaiming := None;
        }
        handed := handed[t.entry.pid := Handover(id, t.entry, t.request, t.atTake, w)];
        tasks := tasks[id := t.(phase := Claimed)];
      } else {
        if warmClaiming == Some(t.entry) {
          warmClaiming := None;
        }
        var operation := BeginWarmCleanup(t.entry, true);
        tasks := tasks[id := t.(phase := if operation.Some? then Releasing(operation.value) else Rejected)];
      }
    }

    method ResumeSpawn(id: Id, w: World)
      requires id in tasks && tasks[id].Claim? && WokenTask(tasks[id])
      modifies this
      ensures View() == SpawnResumes(old(View()), id, w)
    {
      var t := tasks[id];
      if t.phase.Claimed? {
        Prewarm(t.request, w);
        outcomes := outcomes[id := Pooled(t.entry)];
      } else {
        outcomes := outcomes[id := FreshOutcome(w, t.request)];
      }
      warmClaimOperation := None;
      tasks := map i | i in tasks - {id} :: WakeOnClaim(tasks[i]);
    }

    method ResumeRedo(id: Id, w: World)
      requires id in tasks && tasks[id].Redo? && WokenTask(tasks[id])
      modifies this
      ensures View() == RedoResumes(old(View()), id, w)
    {
      var t := tasks[id];
      tasks := tasks - {id};
      if t.destroyed.value && !warmPoolClosing {
        Prewarm(t.request, w);
      }
    }

    // ---------- destroyWarm ----------

    method DestroyWarmFromSlot(id: Id)
      modifies this
      ensures View() == DestroySlot(old(View()), id)
    {
      var entry := warmEntry;
      if entry.None? {
        tasks := tasks - {id};
        return;
      }
      var operation := BeginWarmCleanup(entry.value, true);
      if operation.Some? {
        tasks := tasks[id := Destroy(OnCleanup(operation.value))];
      } else {
        tasks := tasks - {id};
      }
    }

    method DestroyWarmFromClaim(id: Id)
      modifies this
      ensures View() == DestroyAfterWarming(old(View()), id)
    {
      if warmClaimOperation.Some? {
        tasks := tasks[id := Destroy(OnClaim)];
      } else {
        DestroyWarmFromSlot(id);
      }
    }

    method DestroyWarm()
      modifies this
      ensures View() == CallDestroyWarm(old(View()))
    {
      var id := nextId;
      nextId := nextId + 1;
      warmGeneration := warmGeneration + 1;
      ClearWarmExpiryTimer();
      if warming.Some? {
        tasks := tasks[id := Destroy(OnWarming)];
      } else {
        DestroyWarmFromClaim(id);
      }
    }

    method ResumeDestroyWarm(id: Id)
      requires id in tasks && tasks[id].Destroy? && WokenTask(tasks[id])
      modifies this
      ensures View() == DestroyResumes(old(View()), id)
    {
      match tasks[id].stage {
        case WarmingDone => DestroyWarmFromClaim(id);
        case ClaimDone => DestroyWarmFromSlot(id);
        case CleanupDone(_) => tasks := tasks - {id};
        case _ =>
      }
    }

    // ---------- shutdownWarmPool ----------

    method AttemptShutdownCleanup(id: Id, attempt: nat)
      modifies this
      ensures View() == ShutdownAttempt(old(View()), id, attempt)
    {
      var entry := warmEntry;
      if attempt >= WARM_CLEANUP_MAX_ATTEMPTS || entry.None? {
        tasks := tasks[id := Shutdown(attempt, OnInitialization)];
        return;
      }
      var operation := BeginWarmCleanup(entry.value, false);
      tasks := tasks[id := Shutdown(attempt, if operation.Some? then OnCleanup(operation.value) else CleanupDone(false))];
    }

    method ShutdownFromClaim(id: Id)
      modifies this
      ensures View() == ShutdownAfterWarming(old(View()), id)
    {
      if warmClaimOperation.Some? {
        tasks := tasks[id := Shutdown(0, OnClaim)];
      } else {
        AttemptShutdownCleanup(id, 0);
      }
    }

    method CloseWarmPool()
      modifies this
      ensures View() == BeginClosing(old(View()))
    {
      warmPoolClosing := true;
      warmGeneration := warmGeneration + 1;
      ClearWarmExpiryTimer();
      if warmCleanup.Some? {
        retryTimers := retryTimers - {warmCleanup.value.id};
      }
      warmShutdownOperation := Some(nextId);
      nextId := nextId + 1;
    }

    method ShutdownWarmPool()
      modifies this
      ensures View() == CallShutdown(old(View()))
    {
      if warmShutdownOperation.Some? {
        return;
      }
      var id := nextId;
      CloseWarmPool();
      if warming.Some? {
        tasks := tasks[id := Shutdown(0, OnWarming)];
      } else {
        ShutdownFromClaim(id);
      }
    }

    method ResumeShutdown(id: Id)
      requires id in tasks && tasks[id].Shutdown? && WokenTask(tasks[id])
      modifies this
      ensures View() == ShutdownResumes(old(View()), id)
    {
      var attempt := tasks[id].attempt;
      match tasks[id].stage {
        case WarmingDone => ShutdownFromClaim(id);
        case ClaimDone => AttemptShutdownCleanup(id, 0);
        case CleanupDone(ok) =>
          if ok {
            tasks := tasks[id := Shutdown(attempt, OnInitialization)];
          } else if attempt + 1 < WARM_CLEANUP_MAX_ATTEMPTS {
            tasks := tasks[id := Shutdown(attempt, Backoff)];
          } else {
            AttemptShutdownCleanup(id, attempt + 1);
          }
        case _ =>
      }
    }

    // ---------- Timers ----------

    method OnExpiry()
      requires warmExpiryTimer.Some?
      modifies this
      ensures View() == ExpiryFires(old(View()))
    {
      var timer := warmExpiryTimer.value;
      warmExpiryTimer := None;
      if warmPoolClosing || warmGeneration != timer.generation || warmEntry != Some(timer.entry) {
        return;
      }
      var _ := BeginWarmCleanup(timer.entry, true);
    }

    method OnRetry(cleanup: Id)
      requires cleanup in retryTimers
      modifies this
      ensures View() == RetryFires(old(View()), cleanup)
    {
      retryTimers := retryTimers - {cleanup};
      if warmCleanup.None? || warmCleanup.value.id != cleanup || warmCleanup.value.state != Failed {
        return;
      }
      var _ := BeginWarmCleanup(warmCleanup.value.entry, true);
    }

    // ---------- Any event ----------

    method ResumeTask(id: Id, w: World)
      requires id in tasks && WokenTask(tasks[id])
      modifies this
      ensures View() == TaskResumes(old(View()), id, w)
    {
      match tasks[id] {
        case Claim(_, _, _, _) => ResumeSpawn(id, w);
        case Redo(_, _, _) => ResumeRedo(id, w);
        case Destroy(_) => ResumeDestroyWarm(id);
        case Shutdown(_, _) => ResumeShutdown(id);
      }
    }

    /** The object does what the state machine says, whatever happens next; so its states are the reachable ones. */
    method Deliver(e: Event)
      requires Enabled(View(), e)
      modifies this
      ensures View() == Step(old(View()), e)
    {
      match e {
        case PrewarmCalled(r, w) => Prewarm(r, w);
        case SpawnCalled(r, w) => Spawn(r, w);
        case DestroyWarmCalled => DestroyWarm();
        case ShutdownCalled => ShutdownWarmPool();
        case SubprocessSpawned(ok, w) => OnSubprocessSpawned(ok, w);
        case ClaimAnswered(id, ok, w) => OnClaimAnswered(id, ok, w);
        case DestroySettled(id, ok) => OnDestroySettled(id, ok);
        case ExpiryFired => OnExpiry();
        case RetryFired(id) => OnRetry(id);
        case BackoffEnded(id) => AttemptShutdownCleanup(id, tasks[id].attempt + 1);
        case InitializationsClosed(id) =>
          tasks := tasks - {id};
          if warmShutdownOperation == Some(id) {
            warmShutdownOperation := None;
          }
        case PrewarmResumed => FinishPrewarm();
        case TaskResumed(id, w) => ResumeTask(id, w);
      }
    }

    /**
     Driven by any schedule, the object delivers every event that is enabled when its turn comes, and what it shows at
     the end is the state after exactly those events. Whatever holds of reachable states holds of the object: here,
     that each process is in one place.
     */
    method RunSchedule(events: seq<Event>) returns (ghost delivered: seq<Event>)
      requires Reachable(View())
      modifies this
      ensures Run(old(View()), delivered, View())
      ensures delivered == Enabling(old(View()), events)
      ensures Reachable(View())
      ensures forall p: Pid | p < nextPid :: InOnePlace(View(), p)
    {
      delivered := [];
      assert events[0..] == events;
      for i := 0 to |events|
        invariant Reachable(View()) && Run(old(View()), delivered, View())
        invariant Enabling(old(View()), events) == delivered + Enabling(View(), events[i..])
      {
        assert events[i..][0] == events[i] && events[i..][1..] == events[i + 1..];
        if Enabled(View(), events[i]) {
          StepIsReachable(View(), events[i]);
          RunExtends(old(View()), delivered, View(), events[i]);
          Deliver(events[i]);
          delivered := delivered + [events[i]];
        }
      }
      ReachableIsOwned(View());
    }
  }

  /** The events of a schedule that are enabled when their turn comes. */
  function Enabling(s: Pool, events: seq<Event>): seq<Event>
    decreases |events|
  {
    if events == [] then []
    else if Enabled(s, events[0]) then [events[0]] + Enabling(Step(s, events[0]), events[1..])
    else Enabling(s, events[1..])
  }
}
