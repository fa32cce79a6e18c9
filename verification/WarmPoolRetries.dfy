/** Failed destroy calls and the timers that retry them, over every reachable state. */
module WarmPoolRetries {
  import opened JsText
  import opened Wrappers
  import opened Fingerprint
  import opened WarmPool
  import opened WarmPoolInvariant
  import opened WarmPoolOwnership
  import opened WarmPoolRuns
  import opened WarmPoolTheorems
  import opened WarmPoolDecisions

  // ---------- The invariant ----------

  /** Until closing begins the failure of any destroy call may be retried; an armed retry has an attempt left. */
  predicate Retried(s: Pool) {
    && (forall op | op in s.operations :: s.operations[op].scheduleRetry || s.closing)
    && (forall c | c in s.retryTimers :: s.cleanup.Some? && s.cleanup.value.id == c && s.cleanup.value.attempts < 3)
  }

  /** Operations, timers and cleanup record are untouched. */
  predicate SameCleanup(s: Pool, t: Pool) {
    t.operations == s.operations && t.retryTimers == s.retryTimers && t.cleanup == s.cleanup && (s.closing ==> t.closing)
  }

  lemma SameIsRetried(s: Pool, t: Pool)
    requires Retried(s) && SameCleanup(s, t)
    ensures Retried(t)
  {
  }

  lemma BeginIsRetried(s: Pool, e: Entry, retry: bool)
    requires Retried(s) && (retry || s.closing)
    ensures Retried(BeginCleanup(s, e, retry).0) && BeginCleanup(s, e, retry).0.closing == s.closing
  {
  }

  lemma PrewarmIsRetried(s: Pool, r: Request, w: World)
    requires Retried(s)
    ensures Retried(Prewarm(s, r, w)) && Prewarm(s, r, w).closing == s.closing
  {
    hide BeginCleanup, ResolveWarmRuntime, PrewarmMatches;
    if s.entry.Some? { BeginIsRetried(ClearExpiry(s), s.entry.value, true); }
  }

  lemma SpawnIsRetried(s: Pool, r: Request, w: World)
    requires Retried(s)
    ensures Retried(Spawn(s, r, w))
  {
    hide BeginCleanup, Claimable, FreshOutcome;
    if s.entry.Some? { BeginIsRetried(ClearExpiry(s), s.entry.value, true); }
  }

  lemma DestroyIsRetried(s: Pool, id: Id)
    requires Retried(s)
    ensures Retried(DestroySlot(s, id)) && Retried(DestroyAfterWarming(s, id)) && Retried(DestroyFromStart(s, id))
  {
    hide BeginCleanup;
    if s.entry.Some? { BeginIsRetried(s, s.entry.value, true); }
  }

  lemma AttemptIsRetried(s: Pool, id: Id, n: nat)
    requires Retried(s) && s.closing
    ensures Retried(ShutdownAttempt(s, id, n))
    ensures Retried(ShutdownAfterWarming(s, id)) && Retried(ShutdownFromStart(s, id))
  {
    hide BeginCleanup;
    if s.entry.Some? { BeginIsRetried(s, s.entry.value, false); }
  }

  lemma SpawnSettledIsRetried(s: Pool, ok: bool, w: World)
    requires Retried(s) && s.warming.Some? && s.warming.value.Spawning?
    ensures Retried(SpawnSettled(s, ok, w))
  {
    hide BeginCleanup, StillWanted;
    BeginIsRetried(s.(entry := Some(Candidate(s, w)), nextPid := s.nextPid + 1), Candidate(s, w), !s.closing);
  }

  lemma ClaimSettledIsRetried(s: Pool, id: Id, ok: bool, w: World)
    requires Retried(s) && id in s.tasks && s.tasks[id].Claim? && s.tasks[id].phase.Calling?
    ensures Retried(ClaimSettled(s, id, ok, w))
  {
    hide BeginCleanup, ResolveWarmRuntime;
    var e := s.tasks[id].entry;
    BeginIsRetried(s.(claiming := if s.claiming == Some(e) then None else s.claiming), e, true);
  }

  lemma SettlementIsRetried(s: Pool, op: Id, ok: bool)
    requires CleanupInv(s) && Retried(s) && op in s.operations
    ensures Retried(SettleCleanup(s, op, ok))
  {
    OnlyOperation(s, op);
    assert s.retryTimers == {};
    var t := if ok then DestroyConfirmed(s, op) else DestroyFailed(s, op);
    assert Retried(t);
    SameIsRetried(t, WakeCleanup(t, op, ok));
  }

  lemma TimersAreRetried(s: Pool, e: Event)
    requires Retried(s) && Enabled(s, e) && (e.ExpiryFired? || e.RetryFired?)
    ensures Retried(Step(s, e))
  {
    hide BeginCleanup;
    match e
    case ExpiryFired => BeginIsRetried(s.(expiry := None), s.expiry.value.entry, true);
    case RetryFired(c) => if s.cleanup.Some? { BeginIsRetried(ClearRetry(s, c), s.cleanup.value.entry, true); }
  }

  lemma ResumeIsRetried(s: Pool, id: Id, w: World)
    requires Inv(s) && Retried(s) && id in s.tasks && WokenTask(s.tasks[id])
    ensures Retried(TaskResumes(s, id, w))
  {
    assert TaskInv(s, id, s.tasks[id]);
    hide Prewarm, DestroySlot, ShutdownAttempt, FreshOutcome, Inv;
    match s.tasks[id]
    case Claim(_, r, _, _) => PrewarmIsRetried(s, r, w);
    case Redo(r, _, _) => PrewarmIsRetried(s.(tasks := Without(s.tasks, id)), r, w);
    case Destroy(_) => DestroyIsRetried(s, id);
    case Shutdown(n, _) =>
      AttemptIsRetried(s, id, 0);
      AttemptIsRetried(s, id, n + 1);
  }

  lemma StepIsRetried(s: Pool, e: Event)
    requires Inv(s) && Retried(s) && Enabled(s, e)
    ensures Retried(Step(s, e))
  {
    hide Prewarm, Spawn, SpawnSettled, ClaimSettled, SettleCleanup, ShutdownAttempt, TaskResumes, DestroyFromStart,
      ShutdownFromStart, Retried;
    match e {
      case PrewarmCalled(r, w) => PrewarmIsRetried(s, r, w);
      case SpawnCalled(r, w) => SpawnIsRetried(s, r, w);
      case DestroyWarmCalled => SameIsRetried(s, Invalidate(s)); DestroyIsRetried(Invalidate(s), s.nextId);
      case ShutdownCalled => ClosingIsRetried(s); AttemptIsRetried(BeginClosing(s), s.nextId, 0);
      case SubprocessSpawned(ok, w) => SpawnSettledIsRetried(s, ok, w);
      case ClaimAnswered(id, ok, w) => ClaimSettledIsRetried(s, id, ok, w);
      case DestroySettled(op, ok) => SettlementIsRetried(s, op, ok);
      case BackoffEnded(id) => assert TaskInv(s, id, s.tasks[id]); AttemptIsRetried(s, id, s.tasks[id].attempt + 1);
      case InitializationsClosed(id) => SameIsRetried(s, FinishShutdown(s, id));
      case PrewarmResumed => SameIsRetried(s, FinishWarming(s));
      case TaskResumed(id, w) => ResumeIsRetried(s, id, w);
      case _ => TimersAreRetried(s, e);
    }
  }

  lemma ClosingIsRetried(s: Pool)
    requires Retried(s)
    ensures Retried(BeginClosing(s))
  {
  }

  lemma {:induction false} RunIsRetried(s: Pool, events: seq<Event>, t: Pool)
    requires Owned(s) && Retried(s) && Run(s, events, t)
    ensures Retried(t)
    decreases |events|
  {
    hide Owned, Retried, Step;
    if events != [] {
      OwnedHasInv(s);
      StepIsRetried(s, events[0]);
      StepKeepsOwned(s, events[0]);
      RunIsRetried(Step(s, events[0]), events[1..], t);
    }
  }

  lemma ReachableIsRetried(s: Pool)
    requires Reachable(s)
    ensures Retried(s) && Owned(s)
  {
    var events :| Run(EMPTY, events, s);
    RunIsRetried(EMPTY, events, s);
    ReachableIsOwned(s);
  }

  // ---------- What the settlement of a destroy call decides ----------

  /** A confirmed destroy frees the slot for good. */
  lemma ConfirmedDestroyFreesSlot(s: Pool, op: Id)
    requires Reachable(s) && Enabled(s, DestroySettled(op, true))
    ensures
      var t := Step(s, DestroySettled(op, true));
      && s.entry.Some? && t.entry.None? && t.cleanup.None? && t.claiming.None? && t.operations == map[]
      && t.destroyed == s.destroyed + {s.entry.value.pid}
  {
    ReachableIsOwned(s);
    OnlyOperation(s, op);
  }

  /**
   A destroy call that fails leaves its process in the slot, and a retry is armed exactly when no shutdown has begun
   and fewer than three attempts were made.
   */
  lemma FailedDestroyIsRetried(s: Pool, op: Id)
    requires Reachable(s) && Enabled(s, DestroySettled(op, false))
    ensures s.cleanup.Some? && s.cleanup.value.operation == Some(op)
    ensures
      var c, t := s.cleanup.value, Step(s, DestroySettled(op, false));
      && t.entry == s.entry == Some(c.entry) && t.destroyed == s.destroyed && t.operations == map[]
      && t.cleanup == Some(c.(state := Failed, operation := None))
      && t.retryTimers == if !s.closing && c.attempts < 3 then {c.id} else {}
  {
    ReachableIsRetried(s);
    hide Retried, Reachable, DestroyFailed, SlotInv, TasksInv, ReadyInv, ShutdownInv, Accounted, Evidence;
    FailureIsRetried(s, op);
  }

  lemma FailureIsRetried(s: Pool, op: Id)
    requires CleanupInv(s) && Retried(s) && op in s.operations
    ensures s.cleanup.Some? && s.cleanup.value.operation == Some(op)
    ensures
      var c, t := s.cleanup.value, DestroyFailed(s, op);
      && t.entry == s.entry == Some(c.entry) && t.destroyed == s.destroyed && t.operations == map[]
      && t.cleanup == Some(c.(state := Failed, operation := None))
      && t.retryTimers == if !s.closing && c.attempts < 3 then {c.id} else {}
  {
    OnlyOperation(s, op);
    assert s.retryTimers == {};
  }

  /** A retry that is due begins the next attempt, of which there are at most three. */
  lemma RetryBeginsNextAttempt(s: Pool, c: Id)
    requires Reachable(s) && Enabled(s, RetryFired(c))
    ensures s.entry.Some? && s.cleanup.Some?
    ensures
      var n := s.cleanup.value.attempts + 1;
      n <= 3 && Destroying(Step(s, RetryFired(c)), s.entry.value, n, true)
  {
    ReachableIsRetried(s);
    BeginsDestroying(ClearRetry(s, c), s.entry.value, true);
    hide BeginCleanup, Evidence, Accounted;
  }

  /** A process whose lifetime ends while it is ready is destroyed. */
  lemma ExpiredProcessIsDestroyed(s: Pool)
    requires Reachable(s) && Enabled(s, ExpiryFired)
    ensures ResourceStatus(s) == Ready && Destroying(Step(s, ExpiryFired), s.entry.value, 1, true)
  {
    ReachableIsOwned(s);
    BeginsDestroying(s.(expiry := None), s.entry.value, true);
    hide BeginCleanup, Evidence, Accounted;
  }

  // ---------- What destroyWarm waits for ----------

  /**
   destroyWarm at the point where it reads the slot: with no process there it returns; otherwise it waits for the
   destroy call of that process, which it begins unless one is in flight.
   */
  predicate WaitsForSlot(s: Pool, t: Pool, id: Id) {
    if s.entry.None? then id !in t.tasks && t.operations == s.operations
    else
      && t.entry == s.entry && t.cleanup.Some? && t.cleanup.value.state.Pending? && t.cleanup.value.operation.Some?
      && id in t.tasks && t.tasks[id] == Destroy(OnCleanup(t.cleanup.value.operation.value))
      && (s.operations != map[] ==> t.cleanup == s.cleanup)
      && (s.operations == map[] ==>
            Destroying(t, s.entry.value, if s.cleanup.Some? then s.cleanup.value.attempts + 1 else 1, true))
  }

  lemma SlotIsWaitedFor(s: Pool, id: Id)
    requires CleanupInv(s) && s.claiming.None? && s.expiry.None?
    ensures WaitsForSlot(s, DestroySlot(s, id), id)
  {
    if s.entry.Some? {
      if s.cleanup.Some? && s.cleanup.value.state.Pending? {
        assert s.cleanup.value.operation.value in s.operations;
      } else {
        assert s.operations == map[];
        BeginsDestroying(s, s.entry.value, true);
        hide BeginCleanup;
      }
    }
  }

  /** Before it reads the slot, destroyWarm waits for a claim in progress. */
  predicate WaitsForClaimOrSlot(s: Pool, t: Pool, id: Id) {
    if s.claimOperation.Some? then t == s.(tasks := s.tasks[id := Destroy(OnClaim)]) else WaitsForSlot(s, t, id)
  }

  /** destroyWarm outdates every prewarm and lifetime, then waits for a prewarm in flight, a claim, and the slot, in this order. */
  lemma DestroyWarmWaits(s: Pool)
    requires Reachable(s)
    ensures
      var before := s.(generation := s.generation + 1, expiry := None, nextId := s.nextId + 1);
      var t := Step(s, DestroyWarmCalled);
      if s.warming.Some? then t == before.(tasks := s.tasks[s.nextId := Destroy(OnWarming)])
      else WaitsForClaimOrSlot(before, t, s.nextId)
  {
    hide DestroySlot, WaitsForSlot, Reachable, Owned;
    ReachableIsOwned(s);
    OwnedHasInv(s);
    if s.claimOperation.None? { InvalidatedSlot(s); }
    hide Inv;
  }

  lemma InvalidatedSlot(s: Pool)
    requires Inv(s) && s.claimOperation.None?
    ensures WaitsForSlot(Invalidate(s), DestroySlot(Invalidate(s), s.nextId), s.nextId)
  {
    hide DestroySlot, WaitsForSlot, TasksInv, ReadyInv;
    SlotIsWaitedFor(Invalidate(s), s.nextId);
  }

  /** A resumed destroyWarm goes on in the same order, and returns when the destroy call it waited for has settled. */
  lemma DestroyWarmGoesOn(s: Pool, id: Id, w: World)
    requires Reachable(s) && id in s.tasks && s.tasks[id].Destroy? && WokenTask(s.tasks[id])
    ensures
      var t := Step(s, TaskResumed(id, w));
      match s.tasks[id].stage
      case WarmingDone => WaitsForClaimOrSlot(s, t, id)
      case ClaimDone => WaitsForSlot(s, t, id)
      case _ => t == s.(tasks := Without(s.tasks, id))
  {
    ReachableIsOwned(s);
    WokenMeansNotReady(s, id);
    hide DestroySlot, WaitsForSlot, Evidence, Accounted, SlotInv, TasksInv, ReadyInv;
    SlotIsWaitedFor(s, id);
  }

  /**
   A resumed shutdown whose attempt succeeded, or was the third to fail, goes on to close initialisations; after an
   earlier failed attempt it pauses first. When the initialisations are closed it is over, and a later call starts anew.
   */
  lemma ShutdownGoesOn(s: Pool, id: Id, w: World)
    requires Reachable(s) && id in s.tasks && s.tasks[id].Shutdown? && s.tasks[id].stage.CleanupDone?
    ensures
      var n, t := s.tasks[id].attempt, Step(s, TaskResumed(id, w));
      t == s.(tasks := s.tasks[id :=
        if s.tasks[id].stage.destroyed then Shutdown(n, OnInitialization)
        else if n < 2 then Shutdown(n, Backoff)
        else Shutdown(3, OnInitialization)])
  {
    ReachableIsOwned(s);
    assert TaskInv(s, id, s.tasks[id]);
    hide BeginCleanup, Inv, Evidence, Accounted;
  }

  lemma ShutdownEnds(s: Pool, id: Id)
    requires Reachable(s) && Enabled(s, InitializationsClosed(id))
    ensures Step(s, InitializationsClosed(id)) == s.(tasks := Without(s.tasks, id), shutdownOperation := None)
  {
    ReachableIsOwned(s);
    assert TaskInv(s, id, s.tasks[id]);
    hide Inv, Evidence, Accounted;
  }
}
