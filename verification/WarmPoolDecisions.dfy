/**
 What one call, one answer and one timer of the warm pool decide, in terms of the request, the process in the slot
 and what is installed at that moment.
 */
module WarmPoolDecisions {
  import opened JsText
  import opened Wrappers
  import opened Fingerprint
  import opened WarmPool
  import opened WarmPoolInvariant
  import opened WarmPoolOwnership
  import opened WarmPoolRuns
  import opened WarmPoolTheorems

  /** The agent is installed, and its definition and environment have a canonical text. */
  ghost predicate Resolvable(w: World) {
    w.resolved.Some? && Serializable(w.resolved.value.definition) && Serializable(w.resolved.value.environment)
  }

  lemma ResolvesExactly(w: World, r: Request)
    requires RecordsObserved(w)
    ensures ResolveWarmRuntime(w, r).Some? <==> Resolvable(w)
  {
    if w.resolved.Some? {
      FingerprintExists(w.resolved.value.definition, r.workingDir, r.allowedPaths, w.resolved.value.environment);
    }
  }

  /** How a spawn call is answered without the pool. */
  ghost predicate AnsweredFresh(o: Outcome, w: World) {
    o == if Resolvable(w) then Fresh(w.resolved.value) else NotInstalled
  }

  /** Attempt n to destroy e is in flight, and nothing else happens to e; `retry` says whether a failure arms the timer. */
  predicate Destroying(t: Pool, e: Entry, n: nat, retry: bool) {
    && t.entry == Some(e) && t.claiming.None? && t.expiry.None?
    && t.cleanup.Some?
    && var c := t.cleanup.value;
    && c.entry == e && c.state.Pending? && c.attempts == n && c.id !in t.retryTimers
    && c.operation.Some? && c.operation.value in t.operations
    && t.operations[c.operation.value] == Operation(c.id, e, retry)
  }

  /** Only the bookkeeping of cleanups differs. */
  predicate OnlyCleanup(s: Pool, t: Pool) {
    t == s.(cleanup := t.cleanup, operations := t.operations, nextId := t.nextId, retryTimers := t.retryTimers)
    && s.nextId <= t.nextId
  }

  lemma BeginsDestroying(s: Pool, e: Entry, retry: bool)
    requires CleanupAllowed(s, e) && s.expiry.None? && (s.cleanup.Some? ==> s.cleanup.value.state.Failed?)
    ensures
      var (t, op) := BeginCleanup(s, e, retry);
      && OnlyCleanup(s, t)
      && Destroying(t, e, if s.cleanup.Some? then s.cleanup.value.attempts + 1 else 1, retry)
      && op == t.cleanup.value.operation
  {
  }

  lemma ReadyShape(s: Pool)
    requires Reachable(s) && ResourceStatus(s) == Ready
    ensures CleanupInv(s) && s.entry.Some? && s.cleanup.None? && s.claiming.None? && s.warming.None? && !s.closing
    ensures Genuine(s.entry.value) && s.tasks == map[]
  {
    ReachableIsOwned(s);
  }

  // ---------- A spawn call ----------

  lemma UnclaimedSpawn(s: Pool, r: Request, w: World)
    requires RecordsObserved(w) && TasksInv(s)
    ensures
      var t := Spawn(s, r, w);
      var id := t.nextId - 1;
      && s.nextId <= id
      && (id !in t.tasks ==>
            && t.tasks == s.tasks && id in t.outcomes && t.outcomes == s.outcomes[id := t.outcomes[id]]
            && AnsweredFresh(t.outcomes[id], w))
      && (s.entry.None? || s.cleanup.Some? || s.claiming.Some? ==>
            id !in t.tasks && t == s.(outcomes := t.outcomes, nextId := t.nextId))
  {
    hide BeginCleanup, Claimable, ResolveWarmRuntime;
    ResolvesExactly(w, r);
    if s.entry.Some? { BeginCleanupFrame(ClearExpiry(s), s.entry.value, true); }
  }

  /**
   A spawn call that claims nothing is answered at once, under a new identifier: with a fresh subprocess of the
   runtime resolved now exactly when there is one, and with the not-installed error otherwise. A pool that has no
   process ready is left as it is.
   */
  lemma UnclaimedSpawnIsAnswered(s: Pool, r: Request, w: World)
    requires Reachable(s) && RecordsObserved(w)
    ensures
      var t := Step(s, SpawnCalled(r, w));
      var id := t.nextId - 1;
      && s.nextId <= id
      && (id !in t.tasks ==>
            && t.tasks == s.tasks && id in t.outcomes && t.outcomes == s.outcomes[id := t.outcomes[id]]
            && AnsweredFresh(t.outcomes[id], w))
      && (ResourceStatus(s) != Ready ==>
            id !in t.tasks && t == s.(outcomes := t.outcomes, nextId := t.nextId))
  {
    hide Spawn, Reachable, Inv, Owned, ResourceStatus, RecordsObserved, AnsweredFresh;
    ReachableIsOwned(s);
    OwnedTasks(s);
    UnclaimedSpawn(s, r, w);
  }

  lemma OwnedTasks(s: Pool)
    requires Owned(s)
    ensures TasksInv(s)
    ensures ResourceStatus(s) != Ready ==> s.entry.None? || s.cleanup.Some? || s.claiming.Some?
  {
    hide TasksInv;
  }

  lemma SpawnOnReady(s: Pool, r: Request, w: World)
    requires CleanupInv(s) && s.entry.Some? && s.cleanup.None? && s.claiming.None?
    ensures
      var e, t := s.entry.value, Spawn(s, r, w);
      var id := t.nextId - 1;
      var asked := e.request.agentName == r.agentName && e.request.workingDir == r.workingDir;
      var claimed := asked && Claimable(e, r, w);
      && (claimed ==>
            && t == s.(expiry := None, claiming := s.entry, claimOperation := Some(id), tasks := t.tasks, nextId := id + 1)
            && t.tasks == s.tasks[id := Claim(e, r, w, Calling)])
      && (!claimed ==>
            && t.tasks == s.tasks
            && (asked ==> Destroying(t, e, 1, true))
            && (!asked ==> t == s.(outcomes := t.outcomes, nextId := t.nextId)))
  {
    hide Claimable, ResolveWarmRuntime, BeginCleanup;
    BeginsDestroying(ClearExpiry(s), s.entry.value, true);
  }

  /**
   A spawn call on a ready pool claims the process exactly when the process serves the request, was spawned under the
   current policy, is at most five minutes old and alive. Otherwise the call is answered without it, and the process
   is left alone if it belongs to another agent or directory and destroyed if not.
   */
  lemma ReadyProcessIsClaimedExactly(s: Pool, r: Request, w: World)
    requires Reachable(s) && ResourceStatus(s) == Ready
    requires Records(s.entry.value.runtime) && RecordsObserved(w)
    ensures
      var e, t := s.entry.value, Step(s, SpawnCalled(r, w));
      var id := t.nextId - 1;
      var asked := e.request.agentName == r.agentName && e.request.workingDir == r.workingDir;
      if Serves(e, r, w) && e.policyGeneration == w.policyGeneration && w.now - e.createdAt <= 300_000 && !w.dead then
        && t == s.(expiry := None, claiming := s.entry, claimOperation := Some(id), tasks := t.tasks, nextId := id + 1)
        && t.tasks == map[id := Claim(e, r, w, Calling)]
      else
        && t.tasks == map[] && id in t.outcomes && AnsweredFresh(t.outcomes[id], w)
        && (if asked then Destroying(t, e, 1, true) else t == s.(outcomes := t.outcomes, nextId := t.nextId))
  {
    hide Spawn, Serves, ResolveWarmRuntime, CreateDefinitionFingerprint, ResourceStatus, Reachable, Records, Destroying;
    ReadyShape(s);
    ServingProcessMatches(s.entry.value, r, w);
    SpawnOnReady(s, r, w);
    UnclaimedSpawnIsAnswered(s, r, w);
    ServingIsAskedFor(s.entry.value, r, w);
  }

  lemma ServingIsAskedFor(e: Entry, r: Request, w: World)
    ensures Serves(e, r, w) ==> e.request.agentName == r.agentName && e.request.workingDir == r.workingDir
  {
  }

  // ---------- A prewarm call ----------

  /** A prewarm for r began with the runtime, policy and generation of this moment. */
  predicate Begun(p: Option<Warming>, r: Request, w: World, generation: nat) {
    && p.Some? && p.value.Spawning? && p.value.request == r && w.resolved == Some(p.value.runtime)
    && p.value.policyGeneration == w.policyGeneration && p.value.generation == generation
  }

  lemma PrewarmOnIdle(s: Pool, r: Request, w: World)
    requires RecordsObserved(w)
    ensures
      var t := Prewarm(s, r, w);
      if s.closing || s.warming.Some? || s.claiming.Some? || s.cleanup.Some? || !Resolvable(w) then t == s
      else if s.entry.None? then t == s.(warming := t.warming) && Begun(t.warming, r, w, s.generation)
      else true
  {
    ResolvesExactly(w, r);
    hide ResolveWarmRuntime, Replacing, PrewarmMatches;
  }

  /**
   Unless a process is ready, a prewarm begins exactly when the pool is idle and the agent can be resolved, with the
   runtime, policy and generation of the moment of the call; otherwise the call changes nothing.
   */
  lemma IdlePoolBeginsPrewarm(s: Pool, r: Request, w: World)
    requires Reachable(s) && ResourceStatus(s) != Ready && RecordsObserved(w)
    ensures
      var t := Step(s, PrewarmCalled(r, w));
      if ResourceStatus(s) == Empty && Resolvable(w) then
        t == s.(warming := t.warming) && Begun(t.warming, r, w, s.generation)
      else t == s
  {
    ReachableIsOwned(s);
    hide Prewarm, Evidence, Accounted, Begun;
    PrewarmOnIdle(s, r, w);
  }

  lemma ReplacingOnReady(s: Pool, r: Request)
    requires CleanupInv(s) && s.entry.Some? && s.cleanup.None? && s.claiming.None?
    ensures
      var t := Replacing(s, r);
      && Destroying(t, s.entry.value, 1, true)
      && t.tasks == s.tasks[t.nextId - 1 := Redo(r, t.cleanup.value.operation, None)]
      && t.warming == s.warming && t.outcomes == s.outcomes && t.handed == s.handed
  {
    hide BeginCleanup;
    BeginsDestroying(ClearExpiry(s), s.entry.value, true);
  }

  /**
   A prewarm on a ready pool changes nothing exactly when the process serves the request or the agent cannot be
   resolved. Otherwise the process is being destroyed, and the prewarm waits for that.
   */
  lemma PrewarmKeepsServingProcess(s: Pool, r: Request, w: World)
    requires Reachable(s) && ResourceStatus(s) == Ready
    requires Records(s.entry.value.runtime) && RecordsObserved(w)
    ensures
      var e, t := s.entry.value, Step(s, PrewarmCalled(r, w));
      if Serves(e, r, w) || !Resolvable(w) then t == s
      else
        && Destroying(t, e, 1, true) && t.warming.None?
        && t.tasks == map[t.nextId - 1 := Redo(r, t.cleanup.value.operation, None)]
  {
    hide Serves, ResolveWarmRuntime, CreateDefinitionFingerprint, Destroying, Resolvable, Reachable, Replacing,
      ResourceStatus, Records, CleanupInv, Prewarm;
    ReadyShape(s);
    ServingProcessMatches(s.entry.value, r, w);
    ServingIsAskedFor(s.entry.value, r, w);
    ResolvesExactly(w, r);
    ReplacingOnReady(s, r);
    PrewarmOnReady(s, r, w);
  }

  lemma PrewarmOnReady(s: Pool, r: Request, w: World)
    requires !s.closing && s.warming.None? && s.entry.Some? && s.cleanup.None? && s.claiming.None?
    ensures
      var e, now := s.entry.value, ResolveWarmRuntime(w, r);
      Prewarm(s, r, w)
        == if now.None? || (e.request.agentName == r.agentName && e.request.workingDir == r.workingDir
                            && multiset(e.request.allowedPaths) == multiset(r.allowedPaths) && now == Some(e.fingerprint))
           then s else Replacing(s, r)
  {
    hide ResolveWarmRuntime, Replacing;
  }

  /** A suspended call means that no process is ready. */
  lemma SuspendedMeansNotReady(s: Pool, id: Id)
    requires Inv(s) && id in s.tasks
    ensures ResourceStatus(s) == Empty <==>
      !s.closing && s.entry.None? && s.warming.None? && s.claiming.None? && s.cleanup.None?
    ensures s.entry.Some? ==> s.cleanup.Some? || s.claiming.Some?
  {
  }

  /**
   The prewarm that waited for a replacement: once the old process is confirmed destroyed and nothing is closing, it
   begins on an idle pool like any other prewarm; after a failed destroy it does nothing.
   */
  lemma ReplacementPrewarmsAgain(s: Pool, id: Id, w: World)
    requires Reachable(s) && id in s.tasks && s.tasks[id].Redo? && s.tasks[id].destroyed.Some? && RecordsObserved(w)
    ensures
      var before, t := s.(tasks := Without(s.tasks, id)), Step(s, TaskResumed(id, w));
      if s.tasks[id].destroyed.value && ResourceStatus(s) == Empty && Resolvable(w) then
        t == before.(warming := t.warming) && Begun(t.warming, s.tasks[id].request, w, s.generation)
      else t == before
  {
    ReachableIsOwned(s);
    SuspendedMeansNotReady(s, id);
    hide Prewarm, Owned, Begun, Reachable, ResourceStatus, Resolvable, RecordsObserved;
    PrewarmOnIdle(s.(tasks := Without(s.tasks, id)), s.tasks[id].request, w);
    assert Step(s, TaskResumed(id, w)) == RedoResumes(s, id, w) by { hide RedoResumes; }
    hide Step;
  }

  /** When the destroy call of a replacement settles, its prewarm is told how. */
  lemma ReplacementIsTold(s: Pool, id: Id, ok: bool)
    requires Reachable(s) && id in s.tasks && s.tasks[id].Redo? && s.tasks[id].destroyed.None?
    ensures s.tasks[id].operation.Some? && s.tasks[id].operation.value in s.operations
    ensures
      var t := SettleCleanup(s, s.tasks[id].operation.value, ok);
      id in t.tasks && t.tasks[id] == s.tasks[id].(destroyed := Some(ok))
  {
    ReachableIsOwned(s);
    assert TaskInv(s, id, s.tasks[id]);
    Settles(s, s.tasks[id].operation.value, ok);
    hide Reachable, DestroyConfirmed, DestroyFailed, Inv;
  }

  // ---------- The end of a prewarm's spawn ----------

  lemma SettledSpawn(s: Pool, w: World)
    requires CleanupInv(s) && SlotInv(s) && s.warming.Some? && s.warming.value.Spawning?
    ensures
      var e, t := Candidate(s, w), SpawnSettled(s, true, w);
      && t.nextPid == s.nextPid + 1 && t.outcomes == s.outcomes && t.handed == s.handed
      && if StillWanted(s, w) then
           && t.entry == Some(e) && t.expiry == Some(Expiry(e, s.generation))
           && t.warming.None? && t.cleanup.None? && t.claiming.None? && !t.closing
         else
           && Destroying(t, e, 1, !s.closing) && t.warming == Some(Discarding(t.cleanup.value.operation.value))
           && t.tasks == s.tasks
  {
    hide BeginCleanup;
    BeginsDestroying(s.(entry := Some(Candidate(s, w)), nextPid := s.nextPid + 1), Candidate(s, w), !s.closing);
    assert StillWanted(s, w) ==> !s.closing;
    hide StillWanted;
  }

  /** The fingerprint the prewarm holds is that of what it spawned, so it is current exactly when the process serves. */
  lemma CandidateServesExactly(s: Pool, w: World)
    requires GenuineWarming(s.warming) && s.warming.Some? && s.warming.value.Spawning?
    requires Records(s.warming.value.runtime) && RecordsObserved(w)
    ensures Genuine(Candidate(s, w))
    ensures Serves(Candidate(s, w), s.warming.value.request, w)
      <==> ResolveWarmRuntime(w, s.warming.value.request) == Some(s.warming.value.fingerprint)
  {
    ServingProcessMatches(Candidate(s, w), s.warming.value.request, w);
    hide ResolveWarmRuntime, CreateDefinitionFingerprint, Serves;
  }

  /**
   The process that a prewarm yields holds the inputs of the prewarm and the time it became available. It is ready,
   with its lifetime running, exactly when nothing is closing, no destroyWarm and no policy change came in between,
   and it serves what is installed now; otherwise it is being destroyed, retried unless closing, and the prewarm
   ends only when that settles.
   */
  lemma SpawnedProcessIsKeptExactly(s: Pool, w: World)
    requires Reachable(s) && Enabled(s, SubprocessSpawned(true, w))
    requires Records(s.warming.value.runtime) && RecordsObserved(w)
    ensures
      var p, t := s.warming.value, Step(s, SubprocessSpawned(true, w));
      && t.entry.Some? && t.nextPid == s.nextPid + 1
      && var e := t.entry.value;
      && e.pid == s.nextPid && e.request == p.request && e.runtime == p.runtime
      && e.policyGeneration == p.policyGeneration && e.createdAt == w.now
      && if !s.closing && s.generation == p.generation && w.policyGeneration == p.policyGeneration
            && Serves(e, p.request, w)
         then ResourceStatus(t) == Ready && t.warming.None? && t.expiry == Some(Expiry(e, s.generation))
         else Destroying(t, e, 1, !s.closing) && t.warming == Some(Discarding(t.cleanup.value.operation.value))
  {
    ReachableIsOwned(s);
    SettledSpawn(s, w);
    CandidateServesExactly(s, w);
    hide ResolveWarmRuntime, Serves, Inv, Evidence, Accounted, SpawnSettled, Destroying;
  }

  /** A spawn that fails leaves nothing behind: the prewarm is over, and the slot stays empty. */
  lemma FailedSpawnLeavesNothing(s: Pool, w: World)
    requires Reachable(s) && Enabled(s, SubprocessSpawned(false, w))
    ensures
      var t := Step(s, SubprocessSpawned(false, w));
      t == s.(warming := None, tasks := t.tasks) && t.entry.None? && t.tasks.Keys == s.tasks.Keys
  {
    ReachableIsOwned(s);
  }

  // ---------- The answer to a claim ----------

  lemma FailedClaimDestroys(s: Pool, id: Id, ok: bool, w: World)
    requires Inv(s) && Enabled(s, ClaimAnswered(id, ok, w))
    requires !(ok && ResolveWarmRuntime(w, s.tasks[id].request) == Some(s.tasks[id].entry.fingerprint))
    ensures var t := ClaimSettled(s, id, ok, w);
      && Destroying(t, s.tasks[id].entry, 1, true) && t.handed == s.handed && t.outcomes == s.outcomes
      && t.tasks == s.tasks[id := s.tasks[id].(phase := Releasing(t.cleanup.value.operation.value))]
      && s.nextId <= t.nextId
  {
    hide ResolveWarmRuntime, BeginCleanup;
    assert TaskInv(s, id, s.tasks[id]);
    BeginsDestroying(s.(claiming := None), s.tasks[id].entry, true);
  }

  /** What the answer to a claim decides: whether the process is handed over. */
  ghost predicate HandedOver(s: Pool, id: Id, ok: bool, w: World)
    requires id in s.tasks && s.tasks[id].Claim?
  {
    ok && Serves(s.tasks[id].entry, s.tasks[id].request, w)
  }

  lemma ClaimServesExactly(s: Pool, id: Id, w: World)
    requires Evidence(s) && id in s.tasks && s.tasks[id].Claim?
    requires Records(s.tasks[id].entry.runtime) && RecordsObserved(w)
    ensures Serves(s.tasks[id].entry, s.tasks[id].request, w)
      <==> ResolveWarmRuntime(w, s.tasks[id].request) == Some(s.tasks[id].entry.fingerprint)
  {
    assert ClaimTaskOk(s, id, s.tasks[id]);
    ServingProcessMatches(s.tasks[id].entry, s.tasks[id].request, w);
    hide ResolveWarmRuntime, CreateDefinitionFingerprint, Serves;
  }

  /**
   A claim that succeeds for a process that still serves its request hands the process over, and frees the slot.
   Any other claim hands over nothing: its process is being destroyed, and the call waits for that.
   */
  lemma ClaimIsDecidedExactly(s: Pool, id: Id, ok: bool, w: World)
    requires Reachable(s) && Enabled(s, ClaimAnswered(id, ok, w))
    requires Records(s.tasks[id].entry.runtime) && RecordsObserved(w)
    ensures
      var c, t := s.tasks[id], Step(s, ClaimAnswered(id, ok, w));
      && s.entry == Some(c.entry) && c.entry.pid !in s.handed && t.outcomes == s.outcomes
      && if HandedOver(s, id, ok, w) then
           && t.entry.None? && t.claiming.None? && t.cleanup.None?
           && t.handed == s.handed[c.entry.pid := Handover(id, c.entry, c.request, c.atTake, w)]
           && t.tasks == s.tasks[id := c.(phase := Claimed)]
         else
           && Destroying(t, c.entry, 1, true) && t.handed == s.handed
           && t.tasks == s.tasks[id := c.(phase := Releasing(t.cleanup.value.operation.value))]
  {
    ReachableIsOwned(s);
    ClaimServesExactly(s, id, w);
    assert TaskInv(s, id, s.tasks[id]);
    assert InOnePlace(s, s.tasks[id].entry.pid);
    if !HandedOver(s, id, ok, w) {
      FailedClaimDestroys(s, id, ok, w);
      hide ClaimSettled;
    }
    hide ResolveWarmRuntime, CreateDefinitionFingerprint, Serves, Evidence, Destroying, BeginCleanup;
  }

  /** The caller of a successful claim gets the process, and the pool is refilled: as if a prewarm came at that moment. */
  lemma ClaimedProcessIsReturned(s: Pool, id: Id, w: World)
    requires Reachable(s) && id in s.tasks && s.tasks[id].Claim? && s.tasks[id].phase.Claimed? && RecordsObserved(w)
    ensures
      var c, t := s.tasks[id], Step(s, TaskResumed(id, w));
      && t.outcomes == s.outcomes[id := Pooled(c.entry)] && id !in t.tasks && t.claimOperation.None?
      && t.entry == s.entry && t.handed == s.handed
      && if ResourceStatus(s) == Empty && Resolvable(w) then Begun(t.warming, c.request, w, s.generation)
         else t.warming == s.warming
  {
    ReachableIsOwned(s);
    SuspendedMeansNotReady(s, id);
    ResumedClaimSteps(s, id, w);
    ClaimedResumes(s, id, w);
    PrewarmOnIdle(s, s.tasks[id].request, w);
    hide Prewarm, Owned, Begun, Reachable, ResourceStatus, Resolvable, RecordsObserved, SpawnResumes, Step, Without;
  }

  lemma ResumedClaimSteps(s: Pool, id: Id, w: World)
    requires id in s.tasks && s.tasks[id].Claim? && s.tasks[id].phase.Claimed?
    ensures Enabled(s, TaskResumed(id, w)) && Step(s, TaskResumed(id, w)) == SpawnResumes(s, id, w)
  {
    hide SpawnResumes;
  }

  lemma ClaimedResumes(s: Pool, id: Id, w: World)
    requires id in s.tasks && s.tasks[id].Claim? && s.tasks[id].phase.Claimed?
    ensures
      var t, p := SpawnResumes(s, id, w), Prewarm(s, s.tasks[id].request, w);
      && t.outcomes == p.outcomes[id := Pooled(s.tasks[id].entry)] && id !in t.tasks && t.claimOperation.None?
      && t.entry == p.entry && t.handed == p.handed && t.warming == p.warming
  {
    hide Prewarm, FreshOutcome;
  }
}
