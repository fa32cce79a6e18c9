/** The promises of the warm pool, over every reachable state and every run. */
module WarmPoolTheorems {
  import opened JsText
  import opened Wrappers
  import opened Fingerprint
  import opened WarmPool
  import opened WarmPoolInvariant
  import opened WarmPoolOwnership

  // ---------- Ownership ----------

  /** Every process a prewarm ever spawned is in exactly one place. */
  lemma ProcessOwnership(s: Pool, p: Pid)
    requires Reachable(s) && p < s.nextPid
    ensures InSlot(s, p) || p in s.handed || p in s.destroyed
    ensures !(InSlot(s, p) && p in s.handed) && !(InSlot(s, p) && p in s.destroyed) && !(p in s.handed && p in s.destroyed)
  {
    ReachableIsOwned(s);
    assert InOnePlace(s, p);
  }

  /** A step never puts another process over the one in the slot. */
  lemma SlotNeverOverwritten(s: Pool, e: Event)
    requires Reachable(s) && Enabled(s, e) && s.entry.Some? && Step(s, e).entry.Some?
    ensures Step(s, e).entry == s.entry
  {
    ReachableIsOwned(s);
    StepKeepsOwned(s, e);
    SlotAfterStep(s, e);
  }

  lemma SlotAfterStep(s: Pool, e: Event)
    requires Owned(s) && Enabled(s, e) && s.entry.Some?
    ensures Step(s, e).entry.Some? ==> Step(s, e).entry == s.entry
  {
    hide CreateDefinitionFingerprint;
    match e
    case PrewarmCalled(r, w) => PrewarmMovesNothing(s, s, r, w);
    case SpawnCalled(r, w) => SpawnKeepsPlaces(s, r, w);
    case ClaimAnswered(id, ok, w) =>
      if !(ok && ResolveWarmRuntime(w, s.tasks[id].request) == Some(s.tasks[id].entry.fingerprint)) {
        FailedClaimMovesNothing(s, id, ok, w);
      }
    case DestroySettled(op, ok) =>
      OnlyOperation(s, op);
      if !ok {
        FailedDestroyMovesNothing(s, op);
      }
    case TaskResumed(id, w) => SlotAfterResume(s, id, w);
    case SubprocessSpawned(_, _) =>
    case _ => QuietStepMovesNothing(s, e);
  }

  lemma SlotAfterResume(s: Pool, id: Id, w: World)
    requires Owned(s) && id in s.tasks && WokenTask(s.tasks[id])
    ensures TaskResumes(s, id, w).entry == s.entry && TaskResumes(s, id, w).nextPid == s.nextPid
  {
    match s.tasks[id]
    case Claim(_, r, _, _) => PrewarmMovesNothing(s, s, r, w);
    case Redo(_, _, _) => RedoMovesNothing(s, id, w);
    case Destroy(_) => DestroyResumesMovesNothing(s, id);
    case Shutdown(_, _) => ShutdownResumesMovesNothing(s, id);
  }

  /** No process is given to two spawn calls: two calls that returned the same process are the same call. */
  lemma HandedToOneCaller(s: Pool, a: Id, b: Id)
    requires Reachable(s)
    requires a in s.outcomes && s.outcomes[a].Pooled? && b in s.outcomes && s.outcomes[b].Pooled?
    requires s.outcomes[a].entry.pid == s.outcomes[b].entry.pid
    ensures a == b
  {
    ReachableIsOwned(s);
    assert OutcomeOk(s, a) && OutcomeOk(s, b);
  }

  // ---------- The slot ----------

  /** A cleanup is of the slot's entry, a claim is of the slot's entry and excludes cleanup, and a prewarm in flight
      shares the pool with an occupied slot only while that entry is being cleaned up. */
  lemma SlotShape(s: Pool)
    requires Reachable(s)
    ensures s.cleanup.Some? ==> s.entry == Some(s.cleanup.value.entry)
    ensures s.claiming.Some? ==> s.entry == s.claiming && s.cleanup.None?
    ensures s.warming.Some? && s.entry.Some? ==> s.cleanup.Some? && s.cleanup.value.entry == s.entry.value
    ensures s.operations.Keys <= if s.cleanup.Some? && s.cleanup.value.operation.Some? then {s.cleanup.value.operation.value} else {}
  {
    ReachableIsOwned(s);
  }

  /** At every place that calls beginWarmCleanup the branch for another entry is dead: there is always an operation to await. */
  lemma OtherEntryBranchUnreachable(s: Pool, e: Entry, retry: bool)
    requires Reachable(s)
    ensures s.entry == Some(e) ==> BeginCleanup(s, e, retry).1.Some?
    ensures s.cleanup.Some? ==> BeginCleanup(s, s.cleanup.value.entry, retry).1.Some?
    ensures s.warming.Some? && s.warming.value.Spawning? ==> BeginCleanup(s.(entry := Some(e), nextPid := s.nextPid + 1), e, retry).1.Some?
    ensures forall id | id in s.tasks && s.tasks[id].Claim? && s.tasks[id].phase.Calling? ::
              BeginCleanup(s.(claiming := None), s.tasks[id].entry, retry).1.Some?
  {
    ReachableIsOwned(s);
    forall id | id in s.tasks && s.tasks[id].Claim? && s.tasks[id].phase.Calling?
      ensures BeginCleanup(s.(claiming := None), s.tasks[id].entry, retry).1.Some?
    {
      assert TaskInv(s, id, s.tasks[id]);
    }
  }

  /** What each reported state means; `Empty` leaves no process owned, spawning or being destroyed. */
  lemma StatusIsTruthful(s: Pool)
    requires Reachable(s)
    ensures ResourceStatus(s) == Empty <==> !s.closing && s.entry.None? && s.warming.None?
    ensures ResourceStatus(s) == Empty ==>
              s.operations == map[] && s.retryTimers == {} && s.claiming.None?
              && forall p: Pid | p < s.nextPid :: p in s.handed || p in s.destroyed
    ensures ResourceStatus(s) == Ready <==> s.entry.Some? && s.cleanup.None? && s.claiming.None?
    ensures ResourceStatus(s) == Ready ==> s.warming.None? && s.tasks == map[]
    ensures ResourceStatus(s) == ClaimingNow <==> s.claiming.Some?
    ensures ResourceStatus(s) == CleanupPending <==> s.operations != map[]
    ensures ResourceStatus(s) == CleanupFailed <==> s.entry.Some? && s.claiming.None? && s.cleanup.Some? && s.operations == map[]
    ensures ResourceStatus(s) == WarmingUp <==> !s.closing && s.entry.None? && s.warming.Some?
  {
    ReachableIsOwned(s);
    if s.cleanup.Some? && s.cleanup.value.state.Pending? {
      assert s.cleanup.value.operation.value in s.operations;
    }
    assert s.cleanup.None? || s.cleanup.value.state.Failed? ==> s.operations == map[];
    forall p: Pid | p < s.nextPid && s.entry.None? ensures p in s.handed || p in s.destroyed {
      assert InOnePlace(s, p);
    }
  }

  /** The status names the process in the slot whenever there is one, and its attempts exactly while a cleanup owns it. */
  lemma StatusNamesSlot(s: Pool)
    requires Reachable(s)
    ensures Reported(s).0 == s.entry
    ensures Reported(s).1 == if s.cleanup.Some? then Some(s.cleanup.value.attempts) else None
  {
    ReachableIsOwned(s);
  }

  // ---------- What a process serves ----------

  /** The catalog and the environment filter hand over records. */
  ghost predicate Records(r: Runtime) {
    IsRecord(r.definition) && IsRecord(r.environment)
  }

  ghost predicate RecordsObserved(w: World) {
    w.resolved.Some? ==> Records(w.resolved.value)
  }

  /**
   A spawn call that returns a pooled process was the one caller it was handed to. The process was within its
   lifetime and alive when taken, and both before and after the claim call the installed definition, the
   environment, the directory and the paths meant the same as those the process was spawned with.
   */
  lemma PooledProcessMatchesRequest(s: Pool, id: Id, e: Entry)
    requires Reachable(s) && id in s.outcomes && s.outcomes[id] == Pooled(e)
    ensures e.pid in s.handed && s.handed[e.pid].task == id && s.handed[e.pid].entry == e
    ensures var h := s.handed[e.pid];
      && e.request.agentName == h.request.agentName
      && e.policyGeneration == h.atTake.policyGeneration
      && h.atTake.now - e.createdAt <= WARM_TTL_MS && !h.atTake.dead
      && h.atTake.resolved.Some? && h.atClaim.resolved.Some?
      && (Records(e.runtime) && RecordsObserved(h.atTake) && RecordsObserved(h.atClaim) ==>
            && SameInputs(e, h.request, h.atTake.resolved.value)
            && SameInputs(e, h.request, h.atClaim.resolved.value))
  {
    ReachableIsOwned(s);
    assert OutcomeOk(s, id);
    var h := s.handed[e.pid];
    assert Justified(h);
    if Records(e.runtime) && RecordsObserved(h.atTake) && RecordsObserved(h.atClaim) {
      FingerprintMatchMeansSame(e, h.request, h.atTake.resolved.value);
      FingerprintMatchMeansSame(e, h.request, h.atClaim.resolved.value);
    }
  }

  /** Spawning for the request from this runtime would use the same inputs as the process was spawned with. */
  ghost predicate SameInputs(e: Entry, r: Request, now: Runtime) {
    && Serializable(e.runtime.definition) && Serializable(now.definition)
    && Serializable(e.runtime.environment) && Serializable(now.environment)
    && Meaning(e.runtime.definition) == Meaning(now.definition)
    && Meaning(e.runtime.environment) == Meaning(now.environment)
    && e.request.workingDir == r.workingDir
    && multiset(e.request.allowedPaths) == multiset(r.allowedPaths)
  }

  lemma FingerprintMatchMeansSame(e: Entry, r: Request, now: Runtime)
    requires Genuine(e) && Records(e.runtime) && Records(now)
    requires CreateDefinitionFingerprint(now.definition, r.workingDir, r.allowedPaths, now.environment) == Some(e.fingerprint)
    ensures SameInputs(e, r, now)
  {
    hide CreateDefinitionFingerprint;
    FingerprintExists(e.runtime.definition, e.request.workingDir, e.request.allowedPaths, e.runtime.environment);
    FingerprintExists(now.definition, r.workingDir, r.allowedPaths, now.environment);
    FingerprintsEqual(
      e.runtime.definition, e.request.workingDir, e.request.allowedPaths, e.runtime.environment,
      now.definition, r.workingDir, r.allowedPaths, now.environment);
  }

  /** The process was spawned for this agent with the inputs a spawn would use now. */
  ghost predicate Serves(e: Entry, r: Request, w: World) {
    w.resolved.Some? && e.request.agentName == r.agentName && SameInputs(e, r, w.resolved.value)
  }

  /** The fingerprint check is exact: it accepts whatever serves the request. */
  lemma ServingProcessMatches(e: Entry, r: Request, w: World)
    requires Genuine(e) && Records(e.runtime) && RecordsObserved(w)
    ensures Serves(e, r, w) <==>
      && e.request.agentName == r.agentName && e.request.workingDir == r.workingDir
      && multiset(e.request.allowedPaths) == multiset(r.allowedPaths)
      && ResolveWarmRuntime(w, r) == Some(e.fingerprint)
  {
    if w.resolved.Some? {
      var now := w.resolved.value;
      hide CreateDefinitionFingerprint;
      FingerprintExists(e.runtime.definition, e.request.workingDir, e.request.allowedPaths, e.runtime.environment);
      FingerprintExists(now.definition, r.workingDir, r.allowedPaths, now.environment);
      if ResolveWarmRuntime(w, r) == Some(e.fingerprint) {
        FingerprintMatchMeansSame(e, r, now);
      }
      if SameInputs(e, r, now) {
        FingerprintsEqual(
          e.runtime.definition, e.request.workingDir, e.request.allowedPaths, e.runtime.environment,
          now.definition, r.workingDir, r.allowedPaths, now.environment);
      }
    }
  }

  // ---------- Shutdown ----------

  /** From a closing state: still closing, no prewarm begun, and an idle warming field stays idle. */
  predicate StaysClosed(s: Pool, t: Pool) {
    && t.closing
    && (t.warming == s.warming || (s.warming.Some? && !(t.warming.Some? && t.warming.value.Spawning?)))
  }

  lemma BeginCleanupStaysClosed(b: Pool, s: Pool, e: Entry, retry: bool)
    requires StaysClosed(b, s)
    ensures StaysClosed(b, BeginCleanup(s, e, retry).0)
  {
  }

  lemma TimersStayClosed(s: Pool, e: Event)
    requires s.closing && Enabled(s, e) && (e.ExpiryFired? || e.RetryFired?)
    ensures StaysClosed(s, Step(s, e))
  {
    match e
    case ExpiryFired =>
    case RetryFired(c) =>
      if s.cleanup.Some? {
        BeginCleanupStaysClosed(s, ClearRetry(s, c), s.cleanup.value.entry, true);
      }
  }

  lemma DestroyStaysClosed(b: Pool, s: Pool, id: Id)
    requires StaysClosed(b, s)
    ensures StaysClosed(b, DestroySlot(s, id)) && StaysClosed(b, DestroyAfterWarming(s, id))
  {
    if s.entry.Some? {
      BeginCleanupStaysClosed(b, s, s.entry.value, true);
    }
  }

  lemma AttemptStaysClosed(b: Pool, s: Pool, id: Id, n: nat)
    requires StaysClosed(b, s)
    ensures StaysClosed(b, ShutdownAttempt(s, id, n))
    ensures n == 0 ==> StaysClosed(b, ShutdownAfterWarming(s, id))
  {
    if s.entry.Some? {
      BeginCleanupStaysClosed(b, s, s.entry.value, false);
    }
  }

  lemma CallsStayClosed(s: Pool, e: Event)
    requires s.closing && Enabled(s, e)
    requires e.PrewarmCalled? || e.SpawnCalled? || e.DestroyWarmCalled? || e.ShutdownCalled?
    ensures StaysClosed(s, Step(s, e))
  {
    match e
    case PrewarmCalled(_, _) =>
    case SpawnCalled(r, w) =>
      if s.entry.Some? {
        BeginCleanupStaysClosed(s, ClearExpiry(s), s.entry.value, true);
      }
    case DestroyWarmCalled => DestroyStaysClosed(s, Invalidate(s), s.nextId);
    case ShutdownCalled => AttemptStaysClosed(s, BeginClosing(s), s.nextId, 0);
  }

  lemma ResumeStaysClosed(s: Pool, id: Id, w: World)
    requires s.closing && id in s.tasks && WokenTask(s.tasks[id])
    ensures StaysClosed(s, TaskResumes(s, id, w))
  {
    match s.tasks[id]
    case Destroy(_) => DestroyStaysClosed(s, s, id);
    case Shutdown(n, _) =>
      AttemptStaysClosed(s, s, id, n + 1);
      AttemptStaysClosed(s, s, id, 0);
    case _ =>
  }

  lemma SettlementStaysClosed(s: Pool, op: Id, ok: bool)
    requires s.closing && op in s.operations
    ensures StaysClosed(s, if ok then DestroyConfirmed(s, op) else DestroyFailed(s, op))
    ensures StaysClosed(s, SettleCleanup(s, op, ok))
  {
    assert StaysClosed(s, if ok then DestroyConfirmed(s, op) else DestroyFailed(s, op));
  }

  lemma CompletionStaysClosed(s: Pool, e: Event)
    requires s.closing && Enabled(s, e)
    requires e.SubprocessSpawned? || e.ClaimAnswered? || e.DestroySettled? || e.BackoffEnded?
          || e.InitializationsClosed? || e.PrewarmResumed?
    ensures StaysClosed(s, Step(s, e))
  {
    hide CreateDefinitionFingerprint;
    match e
    case SubprocessSpawned(ok, w) =>
      if ok {
        BeginCleanupStaysClosed(s, s.(nextPid := s.nextPid + 1, entry := Some(Candidate(s, w))), Candidate(s, w), false);
      }
    case ClaimAnswered(id, _, _) =>
      var c := s.tasks[id];
      BeginCleanupStaysClosed(s, s.(claiming := if s.claiming == Some(c.entry) then None else s.claiming), c.entry, true);
    case DestroySettled(op, ok) => SettlementStaysClosed(s, op, ok);
    case BackoffEnded(id) => AttemptStaysClosed(s, s, id, s.tasks[id].attempt + 1);
    case _ =>
  }

  lemma StepStaysClosed(s: Pool, e: Event)
    requires s.closing && Enabled(s, e)
    ensures StaysClosed(s, Step(s, e))
  {
    if e.TaskResumed? {
      ResumeStaysClosed(s, e.id, e.w);
    } else if e.ExpiryFired? || e.RetryFired? {
      TimersStayClosed(s, e);
    } else if e.PrewarmCalled? || e.SpawnCalled? || e.DestroyWarmCalled? || e.ShutdownCalled? {
      CallsStayClosed(s, e);
    } else {
      CompletionStaysClosed(s, e);
    }
  }

  /** Only the end of a subprocess spawn fills an empty slot or issues a process. */
  lemma StepIssues(s: Pool, e: Event)
    requires Owned(s) && Enabled(s, e)
    ensures e.SubprocessSpawned? ==> Step(s, e).nextPid <= s.nextPid + 1
    ensures !e.SubprocessSpawned? ==> Step(s, e).nextPid == s.nextPid && (s.entry.None? ==> Step(s, e).entry.None?)
  {
    hide CreateDefinitionFingerprint;
    match e
    case PrewarmCalled(r, w) => PrewarmMovesNothing(s, s, r, w);
    case SpawnCalled(r, w) => SpawnKeepsPlaces(s, r, w);
    case ClaimAnswered(id, ok, w) =>
      if !(ok && ResolveWarmRuntime(w, s.tasks[id].request) == Some(s.tasks[id].entry.fingerprint)) {
        FailedClaimMovesNothing(s, id, ok, w);
      }
    case DestroySettled(op, ok) =>
      if !ok {
        FailedDestroyMovesNothing(s, op);
      }
    case TaskResumed(id, w) => SlotAfterResume(s, id, w);
    case SubprocessSpawned(ok, w) => CandidateOutcome(s, w);
    case _ => QuietStepMovesNothing(s, e);
  }

  /**
   Closing is final. On every run from a closing state no cleanup retry and no expiry timer is armed, at most the
   prewarm already in flight yields a process, and a slot that is empty with nothing in flight stays empty.
   */
  lemma {:induction false} ClosingIsFinal(s: Pool, events: seq<Event>, t: Pool)
    requires Reachable(s) && s.closing && Run(s, events, t)
    ensures t.closing && t.retryTimers == {} && t.expiry.None?
    ensures t.nextPid <= s.nextPid + (if s.warming.Some? && s.warming.value.Spawning? then 1 else 0)
    ensures s.entry.None? && s.warming.None? ==> t.entry.None? && t.warming.None?
  {
    ReachableIsOwned(s);
    ClosingRun(s, events, t);
  }

  lemma {:induction false} ClosingRun(s: Pool, events: seq<Event>, t: Pool)
    requires Owned(s) && s.closing && Run(s, events, t)
    ensures Owned(t) && t.closing && t.retryTimers == {} && t.expiry.None?
    ensures t.nextPid <= s.nextPid + (if s.warming.Some? && s.warming.value.Spawning? then 1 else 0)
    ensures s.entry.None? && s.warming.None? ==> t.entry.None? && t.warming.None?
    decreases |events|
  {
    hide CreateDefinitionFingerprint;
    if events != [] {
      StepStaysClosed(s, events[0]);
      StepIssues(s, events[0]);
      StepKeepsOwned(s, events[0]);
      ClosingRun(Step(s, events[0]), events[1..], t);
    }
  }

  /** The process that a prewarm in flight at shutdown still yields goes to cleanup and nowhere else. */
  lemma LateProcessGoesToCleanup(s: Pool, w: World)
    requires Reachable(s) && s.closing && Enabled(s, SubprocessSpawned(true, w))
    ensures var t := Step(s, SubprocessSpawned(true, w));
      && t.entry.Some? && t.entry.value.pid == s.nextPid
      && t.cleanup.Some? && t.cleanup.value.entry == t.entry.value && t.cleanup.value.state.Pending?
      && t.warming == Some(Discarding(t.cleanup.value.operation.value))
  {
    ReachableIsOwned(s);
  }

  /**
   A shutdown never waits for a fourth cleanup. While it closes initialisations after fewer than three failed ones the
   slot is empty and every process ever spawned was handed out or destroyed.
   */
  lemma ShutdownAttempts(s: Pool, id: Id)
    requires Reachable(s) && id in s.tasks && s.tasks[id].Shutdown?
    ensures s.closing && s.shutdownOperation == Some(id)
    ensures s.tasks[id].stage.OnCleanup? ==> s.tasks[id].attempt < WARM_CLEANUP_MAX_ATTEMPTS
    ensures s.tasks[id].attempt <= WARM_CLEANUP_MAX_ATTEMPTS
    ensures s.tasks[id].stage == CleanupDone(true) ==> s.entry.None? && s.warming.None?
    ensures s.tasks[id].stage.OnInitialization? && s.tasks[id].attempt < WARM_CLEANUP_MAX_ATTEMPTS ==>
              s.entry.None? && s.warming.None? && forall p: Pid | p < s.nextPid :: p in s.handed || p in s.destroyed
  {
    ReachableIsOwned(s);
    assert TaskInv(s, id, s.tasks[id]);
    forall p: Pid | p < s.nextPid && s.entry.None? ensures p in s.handed || p in s.destroyed {
      assert InOnePlace(s, p);
    }
  }
}
