/** What every interleaving of the warm pool keeps. */
module WarmPoolInvariant {
  import opened JsText
  import opened Wrappers
  import opened Fingerprint
  import opened WarmPool

  /** Cleanup record, destroy calls in flight and retry timers belong to the entry in the slot. */
  ghost predicate CleanupInv(s: Pool) {
    && (s.cleanup.Some? ==>
          var c := s.cleanup.value;
          && s.entry == Some(c.entry)
          && s.claiming.None?
          && c.id < s.nextId
          && (c.state.Pending? ==>
                && c.operation.Some?
                && c.operation.value in s.operations)
          && (c.state.Failed? ==> c.operation.None?))
    && (forall op | op in s.operations ::
          && op < s.nextId
          && s.cleanup.Some?
          && s.cleanup.value.state.Pending?
          && s.cleanup.value.operation == Some(op)
          && s.operations[op].cleanup == s.cleanup.value.id
          && s.operations[op].entry == s.cleanup.value.entry)
    && (forall t | t in s.retryTimers :: !s.closing && s.cleanup.Some? && s.cleanup.value.state.Failed? && s.cleanup.value.id == t)
  }

  /** The slot against the prewarm in flight, the expiry timer and the claim. */
  ghost predicate SlotInv(s: Pool) {
    && (s.warming.Some? && s.entry.Some? ==> s.cleanup.Some?)
    && (s.warming.Some? && s.warming.value.Spawning? ==> s.entry.None? && s.warming.value.generation <= s.generation)
    && (s.warming.Some? && s.warming.value.Discarding? ==> s.warming.value.operation in s.operations)
    && (s.expiry.Some? ==>
          && s.entry == Some(s.expiry.value.entry)
          && s.cleanup.None? && s.claiming.None? && !s.closing
          && s.expiry.value.generation == s.generation)
    && (s.claiming.Some? ==>
          && s.entry == s.claiming
          && s.cleanup.None?
          && s.claimOperation.Some?)
    && (s.claimOperation.Some? ==>
          && s.claimOperation.value in s.tasks
          && s.tasks[s.claimOperation.value].Claim?
          && (s.claiming.Some? ==> s.tasks[s.claimOperation.value].phase.Calling?))
  }

  ghost predicate ShutdownInv(s: Pool) {
    s.shutdownOperation.Some? ==>
      s.shutdownOperation.value in s.tasks && s.tasks[s.shutdownOperation.value].Shutdown?
  }

  ghost predicate StageInv(s: Pool, stage: Stage) {
    && (stage.OnWarming? ==>
          s.warming.Some? && (s.warming.value.Spawning? ==> s.warming.value.generation < s.generation))
    && (stage.OnClaim? ==> s.claimOperation.Some?)
    && (stage.OnCleanup? ==> stage.operation in s.operations)
  }

  ghost predicate TaskInv(s: Pool, id: Id, t: Task) {
    match t
    case Claim(e, r, w, phase) =>
      && s.claimOperation == Some(id)
      && (phase.Calling? ==> s.claiming == Some(e))
      && (phase.Releasing? ==> phase.operation in s.operations && s.entry == Some(e))
    case Redo(_, op, destroyed) => destroyed.None? ==> op.Some? && op.value in s.operations
    case Destroy(stage) => StageInv(s, stage) && !stage.Backoff? && !stage.OnInitialization?
    case Shutdown(n, stage) =>
      && StageInv(s, stage)
      && s.closing && s.shutdownOperation == Some(id)
      && (!stage.OnWarming? ==> s.warming.None?)
      && (if stage.OnInitialization? then n <= 3 && (n < 3 ==> s.entry.None?) else n < 3)
      && (stage.Backoff? ==> n + 1 < 3)
      && (stage == CleanupDone(true) ==> s.entry.None?)
  }

  ghost predicate TasksInv(s: Pool) {
    forall id | id in s.tasks :: id < s.nextId && TaskInv(s, id, s.tasks[id])
  }

  predicate WaitsForClaim(t: Task) {
    (t.Destroy? || t.Shutdown?) && t.stage.OnClaim?
  }

  /** A slot that nobody cleans up: either idle, with no call suspended, or being claimed. */
  ghost predicate ReadyInv(s: Pool) {
    s.entry.Some? && s.cleanup.None? ==>
      if s.claiming.None? then !s.closing && s.tasks == map[]
      else forall id | id in s.tasks :: s.tasks[id].Claim? || WaitsForClaim(s.tasks[id])
  }

  /** The pool's own bookkeeping. */
  ghost predicate Inv(s: Pool) {
    CleanupInv(s) && SlotInv(s) && TasksInv(s) && ReadyInv(s) && ShutdownInv(s)
  }

  // ---------- Beginning a cleanup ----------

  /** When beginWarmCleanup may be called: for the entry in the slot, never for one being claimed. */
  ghost predicate CleanupAllowed(s: Pool, e: Entry) {
    CleanupInv(s) && s.entry == Some(e) && s.claiming.None?
  }

  lemma BeginCleanupKeeps(s: Pool, e: Entry, retry: bool)
    requires CleanupAllowed(s, e)
    ensures var (t, op) := BeginCleanup(s, e, retry);
      && CleanupInv(t)
      && op.Some? && op.value in t.operations
      && t.cleanup.Some? && t.cleanup.value.state.Pending? && t.cleanup.value.entry == e
      && (forall o | o in s.operations :: o in t.operations)
      && s.nextId <= t.nextId
      && t == s.(cleanup := t.cleanup, operations := t.operations, nextId := t.nextId, retryTimers := t.retryTimers)
      && (s.cleanup.Some? ==> t.cleanup.value.id == s.cleanup.value.id)
  {
  }

  /** Beginning a cleanup disturbs no suspended call. */
  lemma BeginCleanupKeepsInv(s: Pool, e: Entry, retry: bool)
    requires CleanupAllowed(s, e) && SlotInv(s) && TasksInv(s) && ShutdownInv(s) && s.expiry.None?
    ensures var (t, op) := BeginCleanup(s, e, retry);
      Inv(t) && op.Some? && op.value in t.operations && op.value < t.nextId && t.cleanup.Some?
  {
    BeginCleanupKeeps(s, e, retry);
    var (t, op) := BeginCleanup(s, e, retry);
    forall id | id in t.tasks ensures id < t.nextId && TaskInv(t, id, t.tasks[id]) {
      assert TaskInv(s, id, s.tasks[id]);
    }
  }

  // ---------- One lemma per event ----------

  lemma PrewarmKeepsInv(s: Pool, r: Request, w: World)
    requires Inv(s)
    ensures Inv(Prewarm(s, r, w))
    ensures var t := Prewarm(s, r, w);
      && t.claimOperation == s.claimOperation && t.closing == s.closing && t.generation == s.generation
      && s.nextId <= t.nextId
      && (forall id | id in s.tasks :: id in t.tasks && t.tasks[id] == s.tasks[id])
      && (forall id | id in t.tasks && id !in s.tasks :: t.tasks[id].Redo?)
  {
    hide ResolveWarmRuntime, PrewarmMatches, BeginCleanup;
    var t := Prewarm(s, r, w);
    var fingerprint := ResolveWarmRuntime(w, r);
    if s.closing || s.warming.Some? || s.claiming.Some? || s.cleanup.Some? || fingerprint.None? {
    } else if s.entry.Some? {
      if !PrewarmMatches(s.entry.value, r, fingerprint.value) {
        ReplaceKeepsInv(s, r);
        hide Replacing, Inv;
      }
    } else {
      forall id | id in t.tasks ensures id < t.nextId && TaskInv(t, id, t.tasks[id]) {
        assert TaskInv(s, id, s.tasks[id]);
      }
    }
  }

  lemma ReplaceKeepsInv(s: Pool, r: Request)
    requires Inv(s) && !s.closing && s.warming.None? && s.claiming.None? && s.cleanup.None? && s.entry.Some?
    ensures var t := Replacing(s, r);
      && Inv(t) && t.claimOperation == s.claimOperation && t.closing == s.closing && t.generation == s.generation
      && s.nextId <= t.nextId && s.tasks == map[]
      && (forall id | id in t.tasks :: t.tasks[id].Redo?)
  {
    hide BeginCleanup;
    BeginCleanupKeepsInv(ClearExpiry(s), s.entry.value, true);
    BeginCleanupKeeps(ClearExpiry(s), s.entry.value, true);
    assert s.tasks == map[];
  }

  lemma FinishWarmingKeepsInv(s: Pool)
    requires Inv(s) && s.warming.Some?
    ensures Inv(FinishWarming(s))
  {
    var t := FinishWarming(s);
    forall id | id in t.tasks ensures id < t.nextId && TaskInv(t, id, t.tasks[id]) {
      assert TaskInv(s, id, s.tasks[id]);
    }
  }

  /** While a subprocess is being spawned, a suspended call can only be one that has invalidated that prewarm. */
  lemma WaitingForSpawn(s: Pool, id: Id)
    requires Inv(s) && Quiet(s) && s.warming.Some? && s.warming.value.Spawning? && id in s.tasks
    ensures s.closing || s.warming.value.generation < s.generation
  {
    assert TaskInv(s, id, s.tasks[id]);
    assert !WokenTask(s.tasks[id]);
    assert forall i | i in s.tasks :: TaskInv(s, i, s.tasks[i]) && !WokenTask(s.tasks[i]);
  }

  lemma DiscardKeepsInv(s: Pool, e: Entry)
    requires Inv(s) && Quiet(s) && s.warming.Some? && s.warming.value.Spawning?
    ensures Inv(DiscardCandidate(s, e))
  {
    BeginCleanupKeeps(s.(entry := Some(e), nextPid := s.nextPid + 1), e, !s.closing);
    var t := DiscardCandidate(s, e);
    forall id | id in t.tasks ensures id < t.nextId && TaskInv(t, id, t.tasks[id]) {
      assert TaskInv(s, id, s.tasks[id]) && !WokenTask(s.tasks[id]);
    }
  }

  lemma AcceptKeepsInv(s: Pool, e: Entry)
    requires Inv(s) && Quiet(s) && s.warming.Some? && s.warming.value.Spawning?
    requires !s.closing && s.warming.value.generation == s.generation
    ensures Inv(AcceptCandidate(s, e))
  {
    if exists id :: id in s.tasks {
      var id :| id in s.tasks;
      WaitingForSpawn(s, id);
    }
    assert s.tasks == map[];
  }

  lemma SpawnSettledKeepsInv(s: Pool, ok: bool, w: World)
    requires Inv(s) && Enabled(s, SubprocessSpawned(ok, w))
    ensures Inv(SpawnSettled(s, ok, w))
  {
    hide DiscardCandidate, AcceptCandidate, ResolveWarmRuntime, Inv;
    FinishWarmingKeepsInv(s);
    DiscardKeepsInv(s, Candidate(s, w));
    if StillWanted(s, w) {
      AcceptKeepsInv(s, Candidate(s, w));
    }
  }

  /** A refused take leaves the slot alone or sends its entry to cleanup. */
  lemma RefusedTakeKeepsInv(s: Pool, r: Request, w: World)
    requires Inv(s) && !TakeWarm(s, r, w).1
    ensures Inv(TakeWarm(s, r, w).0)
  {
    hide ResolveWarmRuntime, Claimable, BeginCleanup;
    if s.entry.Some? && s.cleanup.None? && s.claiming.None? {
      BeginCleanupKeepsInv(ClearExpiry(s), s.entry.value, true);
    }
  }

  lemma SpawnKeepsInv(s: Pool, r: Request, w: World)
    requires Inv(s)
    ensures Inv(Spawn(s, r, w))
  {
    hide CreateDefinitionFingerprint, BeginCleanup, FreshOutcome;
    var (s1, taken) := TakeWarm(s, r, w);
    var t := Spawn(s, r, w);
    if taken {
      assert s.tasks == map[];
    } else {
      RefusedTakeKeepsInv(s, r, w);
      forall id | id in t.tasks ensures id < t.nextId && TaskInv(t, id, t.tasks[id]) {
        assert TaskInv(s1, id, s1.tasks[id]);
      }
    }
  }

  lemma ClaimSucceedsKeepsInv(s: Pool, id: Id, ok: bool, w: World)
    requires Inv(s) && Enabled(s, ClaimAnswered(id, ok, w))
    requires ok && ResolveWarmRuntime(w, s.tasks[id].request) == Some(s.tasks[id].entry.fingerprint)
    ensures Inv(ClaimSettled(s, id, ok, w))
  {
    hide CreateDefinitionFingerprint, ResolveWarmRuntime;
    assert TaskInv(s, id, s.tasks[id]);
    var t := ClaimSettled(s, id, ok, w);
    forall i | i in t.tasks ensures i < t.nextId && TaskInv(t, i, t.tasks[i]) {
      assert TaskInv(s, i, s.tasks[i]);
    }
  }

  lemma ClaimFailsKeepsInv(s: Pool, id: Id, ok: bool, w: World)
    requires Inv(s) && Enabled(s, ClaimAnswered(id, ok, w))
    requires !(ok && ResolveWarmRuntime(w, s.tasks[id].request) == Some(s.tasks[id].entry.fingerprint))
    ensures Inv(ClaimSettled(s, id, ok, w))
  {
    hide CreateDefinitionFingerprint, ResolveWarmRuntime;
    assert TaskInv(s, id, s.tasks[id]);
    var t := ClaimSettled(s, id, ok, w);
    BeginCleanupKeeps(s.(claiming := None), s.tasks[id].entry, true);
    forall i | i in t.tasks ensures i < t.nextId && TaskInv(t, i, t.tasks[i]) {
      assert TaskInv(s, i, s.tasks[i]);
    }
  }

  lemma DestroySlotKeepsInv(s: Pool, id: Id)
    requires CleanupInv(s) && SlotInv(s) && ReadyInv(s) && ShutdownInv(s) && s.claiming.None? && s.expiry.None? && id < s.nextId
    requires forall i | i in s.tasks && i != id :: i < s.nextId && TaskInv(s, i, s.tasks[i])
    requires s.claimOperation != Some(id) && s.shutdownOperation != Some(id)
    requires id in s.tasks ==> s.tasks[id].Destroy?
    ensures Inv(DestroySlot(s, id))
  {
    hide BeginCleanup;
    var t := DestroySlot(s, id);
    if s.entry.Some? {
      BeginCleanupKeeps(s, s.entry.value, true);
    }
    forall i | i in t.tasks ensures i < t.nextId && TaskInv(t, i, t.tasks[i]) {
      if i != id {
        assert TaskInv(s, i, s.tasks[i]);
      }
    }
  }

  lemma DestroyAfterWarmingKeepsInv(s: Pool, id: Id)
    requires CleanupInv(s) && SlotInv(s) && ReadyInv(s) && ShutdownInv(s) && s.expiry.None? && id < s.nextId
    requires forall i | i in s.tasks && i != id :: i < s.nextId && TaskInv(s, i, s.tasks[i])
    requires s.claimOperation != Some(id) && s.shutdownOperation != Some(id)
    requires id in s.tasks ==> s.tasks[id].Destroy?
    ensures Inv(DestroyAfterWarming(s, id))
  {
    if s.claimOperation.None? {
      DestroySlotKeepsInv(s, id);
    } else {
      var t := DestroyAfterWarming(s, id);
      forall i | i in t.tasks ensures i < t.nextId && TaskInv(t, i, t.tasks[i]) {
        if i != id {
          assert TaskInv(s, i, s.tasks[i]);
        }
      }
    }
  }

  /** Raising the generation and clearing the expiry timer, as destroyWarm and shutdown do first. */
  lemma InvalidateKeepsInv(s: Pool)
    requires Inv(s)
    ensures Inv(Invalidate(s))
  {
    var t := Invalidate(s);
    forall i | i in t.tasks ensures i < t.nextId && TaskInv(t, i, t.tasks[i]) {
      assert TaskInv(s, i, s.tasks[i]);
    }
  }

  lemma AddWaiterKeepsInv(s: Pool, id: Id, t: Task)
    requires CleanupInv(s) && SlotInv(s) && s.warming.Some? && id < s.nextId
    requires forall i | i in s.tasks && i != id :: i < s.nextId && TaskInv(s, i, s.tasks[i])
    requires s.claimOperation != Some(id) && TaskInv(s, id, t)
    requires t.Destroy? || (t.Shutdown? && s.shutdownOperation == Some(id))
    requires t.Destroy? ==> s.shutdownOperation != Some(id) && ShutdownInv(s)
    ensures Inv(s.(tasks := s.tasks[id := t]))
  {
    var u := s.(tasks := s.tasks[id := t]);
    forall i | i in u.tasks ensures i < u.nextId && TaskInv(u, i, u.tasks[i]) {
      assert i != id ==> TaskInv(s, i, s.tasks[i]);
    }
  }

  lemma CallDestroyWarmKeepsInv(s: Pool)
    requires Inv(s)
    ensures Inv(CallDestroyWarm(s))
  {
    InvalidateKeepsInv(s);
    DestroyFromStartKeepsInv(Invalidate(s), s.nextId);
  }

  lemma DestroyFromStartKeepsInv(s: Pool, id: Id)
    requires Inv(s) && s.expiry.None? && id < s.nextId && id !in s.tasks
    requires s.warming.Some? && s.warming.value.Spawning? ==> s.warming.value.generation < s.generation
    ensures Inv(DestroyFromStart(s, id))
  {
    if s.warming.None? {
      DestroyAfterWarmingKeepsInv(s, id);
    } else {
      AddWaiterKeepsInv(s, id, Destroy(OnWarming));
    }
  }

  lemma DestroyResumesKeepsInv(s: Pool, id: Id)
    requires Inv(s) && id in s.tasks && s.tasks[id].Destroy? && WokenTask(s.tasks[id])
    ensures Inv(DestroyResumes(s, id))
  {
    assert TaskInv(s, id, s.tasks[id]);
    WokenMeansNotReady(s, id);
    match s.tasks[id].stage
    case WarmingDone => DestroyAfterWarmingKeepsInv(s, id);
    case ClaimDone => DestroySlotKeepsInv(s, id);
    case CleanupDone(_) =>
      var t := DestroyResumes(s, id);
      forall i | i in t.tasks ensures i < t.nextId && TaskInv(t, i, t.tasks[i]) {
        assert TaskInv(s, i, s.tasks[i]);
      }
    case _ =>
  }

  /** A woken call finds a slot that is empty or under cleanup, and no claim in progress. */
  lemma WokenMeansNotReady(s: Pool, id: Id)
    requires Inv(s) && id in s.tasks && WokenTask(s.tasks[id])
    ensures s.claiming.None? && s.expiry.None? && (s.entry.Some? ==> s.cleanup.Some?)
  {
    assert TaskInv(s, id, s.tasks[id]);
  }

  lemma ShutdownAttemptKeepsInv(s: Pool, id: Id, attempt: nat)
    requires CleanupInv(s) && SlotInv(s) && (attempt == 3 ==> ReadyInv(s)) && s.claiming.None? && s.expiry.None? && id < s.nextId
    requires forall i | i in s.tasks && i != id :: i < s.nextId && TaskInv(s, i, s.tasks[i])
    requires s.closing && s.warming.None? && s.claimOperation != Some(id) && s.shutdownOperation == Some(id)
    requires attempt <= 3
    ensures Inv(ShutdownAttempt(s, id, attempt))
  {
    var t := ShutdownAttempt(s, id, attempt);
    if attempt < 3 && s.entry.Some? {
      BeginCleanupKeeps(s, s.entry.value, false);
    }
    forall i | i in t.tasks ensures i < t.nextId && TaskInv(t, i, t.tasks[i]) {
      if i != id {
        assert TaskInv(s, i, s.tasks[i]);
      }
    }
  }

  lemma ShutdownAfterWarmingKeepsInv(s: Pool, id: Id)
    requires CleanupInv(s) && SlotInv(s) && (s.claimOperation.Some? ==> ReadyInv(s)) && s.expiry.None? && id < s.nextId
    requires forall i | i in s.tasks && i != id :: i < s.nextId && TaskInv(s, i, s.tasks[i])
    requires s.closing && s.warming.None? && s.claimOperation != Some(id) && s.shutdownOperation == Some(id)
    ensures Inv(ShutdownAfterWarming(s, id))
  {
    if s.claimOperation.None? {
      ShutdownAttemptKeepsInv(s, id, 0);
    } else {
      var t := ShutdownAfterWarming(s, id);
      forall i | i in t.tasks ensures i < t.nextId && TaskInv(t, i, t.tasks[i]) {
        assert i != id ==> TaskInv(s, i, s.tasks[i]);
      }
    }
  }

  lemma BeginClosingKeeps(s: Pool)
    requires Inv(s) && s.shutdownOperation.None?
    ensures var t := BeginClosing(s);
      && CleanupInv(t) && SlotInv(t) && TasksInv(t) && t.expiry.None?
      && (t.claimOperation.Some? ==> ReadyInv(t))
      && (t.warming.Some? && t.warming.value.Spawning? ==> t.warming.value.generation < t.generation)
  {
    var t := BeginClosing(s);
    assert t.retryTimers == {};
    forall i | i in t.tasks ensures i < t.nextId && TaskInv(t, i, t.tasks[i]) {
      assert TaskInv(s, i, s.tasks[i]);
    }
  }

  lemma CallShutdownKeepsInv(s: Pool)
    requires Inv(s)
    ensures Inv(CallShutdown(s))
  {
    if s.shutdownOperation.None? {
      var s1 := BeginClosing(s);
      BeginClosingKeeps(s);
      if s1.warming.Some? {
        AddWaiterKeepsInv(s1, s.nextId, Shutdown(0, OnWarming));
      } else {
        ShutdownAfterWarmingKeepsInv(s1, s.nextId);
      }
    }
  }

  lemma ShutdownResumesKeepsInv(s: Pool, id: Id)
    requires Inv(s) && id in s.tasks && s.tasks[id].Shutdown? && WokenTask(s.tasks[id])
    ensures Inv(ShutdownResumes(s, id))
  {
    assert TaskInv(s, id, s.tasks[id]);
    WokenMeansNotReady(s, id);
    match s.tasks[id].stage
    case WarmingDone => ShutdownAfterWarmingKeepsInv(s, id);
    case ClaimDone => ShutdownAttemptKeepsInv(s, id, 0);
    case CleanupDone(destroyed) =>
      var attempt := s.tasks[id].attempt;
      if !destroyed && attempt + 1 >= 3 {
        ShutdownAttemptKeepsInv(s, id, attempt + 1);
      } else {
        var t := ShutdownResumes(s, id);
        forall i | i in t.tasks ensures i < t.nextId && TaskInv(t, i, t.tasks[i]) {
          assert TaskInv(s, i, s.tasks[i]);
        }
      }
    case _ =>
  }

  lemma BackoffEndedKeepsInv(s: Pool, id: Id)
    requires Inv(s) && Enabled(s, BackoffEnded(id))
    ensures Inv(ShutdownAttempt(s, id, s.tasks[id].attempt + 1))
  {
    assert TaskInv(s, id, s.tasks[id]);
    ShutdownAttemptKeepsInv(s, id, s.tasks[id].attempt + 1);
  }

  lemma FinishShutdownKeepsInv(s: Pool, id: Id)
    requires Inv(s) && Enabled(s, InitializationsClosed(id))
    ensures Inv(FinishShutdown(s, id))
  {
    assert TaskInv(s, id, s.tasks[id]);
    var t := FinishShutdown(s, id);
    forall i | i in t.tasks ensures i < t.nextId && TaskInv(t, i, t.tasks[i]) {
      assert TaskInv(s, i, s.tasks[i]);
    }
  }

  /** What a settlement leaves before those who awaited it are woken. */
  ghost predicate JustSettled(s: Pool, t: Pool, ok: bool) {
    && t.operations == map[]
    && t.tasks == s.tasks && t.warming == s.warming && t.closing == s.closing && t.generation == s.generation
    && t.claimOperation == s.claimOperation && t.shutdownOperation == s.shutdownOperation && t.claiming.None?
    && t.nextId == s.nextId && t.expiry.None?
    && t.entry == (if ok then None else s.entry)
    && (t.entry.Some? ==> t.cleanup.Some?)
    && CleanupInv(t)
  }

  lemma OnlyOperation(s: Pool, op: Id)
    requires CleanupInv(s) && op in s.operations
    ensures Without(s.operations, op) == map[]
    ensures s.cleanup.Some? && s.cleanup.value.id == s.operations[op].cleanup
    ensures s.entry == Some(s.operations[op].entry) && s.claiming.None?
  {
    assert forall o | o in s.operations :: o == op;
  }

  lemma Settles(s: Pool, op: Id, ok: bool)
    requires Inv(s) && op in s.operations
    ensures JustSettled(s, if ok then DestroyConfirmed(s, op) else DestroyFailed(s, op), ok)
  {
    OnlyOperation(s, op);
    if ok {
      var t := DestroyConfirmed(s, op);
      assert t.cleanup.None? && t.entry.None? && t.retryTimers == {};
    } else {
      var t := DestroyFailed(s, op);
      assert t.cleanup == Some(s.cleanup.value.(state := Failed, operation := None));
      assert t.retryTimers <= (if s.closing then {} else {s.cleanup.value.id});
    }
  }

  lemma WakeCleanupTask(s: Pool, t: Pool, op: Id, ok: bool, i: Id)
    requires Inv(s) && op in s.operations && JustSettled(s, t, ok) && i in s.tasks
    ensures TaskInv(WakeCleanup(t, op, ok), i, WakeOnCleanup(s.tasks[i], op, ok))
  {
    assert TaskInv(s, i, s.tasks[i]);
    assert forall o | o in s.operations :: o == op;
  }

  lemma SettleCleanupKeepsInv(s: Pool, op: Id, ok: bool)
    requires Inv(s) && op in s.operations
    ensures Inv(SettleCleanup(s, op, ok))
  {
    var t := if ok then DestroyConfirmed(s, op) else DestroyFailed(s, op);
    Settles(s, op, ok);
    WakeCleanupKeepsInv(s, t, op, ok);
  }

  lemma WakeCleanupKeepsInv(s: Pool, t: Pool, op: Id, ok: bool)
    requires Inv(s) && op in s.operations && JustSettled(s, t, ok)
    ensures Inv(WakeCleanup(t, op, ok))
  {
    var u := WakeCleanup(t, op, ok);
    forall i | i in u.tasks ensures i < u.nextId && TaskInv(u, i, u.tasks[i]) {
      WakeCleanupTask(s, t, op, ok, i);
    }
    assert forall o | o in s.operations :: o == op;
  }

  lemma ClaimEndsKeepsInv(s: Pool, id: Id)
    requires Inv(s) && id in s.tasks && s.tasks[id].Claim? && s.claiming.None?
    ensures Inv(s.(claimOperation := None, tasks := map i | i in Without(s.tasks, id) :: WakeOnClaim(s.tasks[i])))
  {
    var t := s.(claimOperation := None, tasks := map i | i in Without(s.tasks, id) :: WakeOnClaim(s.tasks[i]));
    assert TaskInv(s, id, s.tasks[id]);
    forall i | i in t.tasks ensures i < t.nextId && TaskInv(t, i, t.tasks[i]) {
      assert TaskInv(s, i, s.tasks[i]);
    }
  }

  lemma SpawnResumesKeepsInv(s: Pool, id: Id, w: World)
    requires Inv(s) && id in s.tasks && s.tasks[id].Claim? && WokenTask(s.tasks[id])
    ensures Inv(SpawnResumes(s, id, w))
  {
    var c := s.tasks[id];
    assert TaskInv(s, id, c);
    var s1 := if c.phase.Claimed? then Prewarm(s, c.request, w) else s;
    PrewarmKeepsInv(s, c.request, w);
    ClaimEndsKeepsInv(s1, id);
    var u := s1.(claimOperation := None, tasks := map i | i in Without(s1.tasks, id) :: WakeOnClaim(s1.tasks[i]));
    OutcomesAreFree(u, SpawnResumes(s, id, w));
  }

  /** The outcome table takes no part in the invariant. */
  lemma OutcomesAreFree(s: Pool, t: Pool)
    requires Inv(s) && t == s.(outcomes := t.outcomes)
    ensures Inv(t)
  {
    assert forall i | i in s.tasks :: TaskInv(s, i, s.tasks[i]) ==> TaskInv(t, i, s.tasks[i]);
  }

  lemma RedoResumesKeepsInv(s: Pool, id: Id, w: World)
    requires Inv(s) && id in s.tasks && s.tasks[id].Redo? && WokenTask(s.tasks[id])
    ensures Inv(RedoResumes(s, id, w))
  {
    var s1 := s.(tasks := Without(s.tasks, id));
    assert forall i | i in s.tasks :: TaskInv(s, i, s.tasks[i]) ==> TaskInv(s1, i, s.tasks[i]);
    assert Inv(s1);
    PrewarmKeepsInv(s1, s.tasks[id].request, w);
  }

  lemma TimersKeepInv(s: Pool, e: Event)
    requires Inv(s) && Enabled(s, e) && (e.ExpiryFired? || e.RetryFired?)
    ensures Inv(Step(s, e))
  {
    match e
    case ExpiryFired => BeginCleanupKeepsInv(s.(expiry := None), s.expiry.value.entry, true);
    case RetryFired(c) =>
      var s1 := ClearRetry(s, c);
      assert forall i | i in s.tasks :: TaskInv(s, i, s.tasks[i]) ==> TaskInv(s1, i, s.tasks[i]);
      BeginCleanupKeepsInv(s1, s.cleanup.value.entry, true);
  }

  lemma TaskResumesKeepsInv(s: Pool, id: Id, w: World)
    requires Inv(s) && id in s.tasks && WokenTask(s.tasks[id])
    ensures Inv(TaskResumes(s, id, w))
  {
    match s.tasks[id]
    case Claim(_, _, _, _) => SpawnResumesKeepsInv(s, id, w);
    case Redo(_, _, _) => RedoResumesKeepsInv(s, id, w);
    case Destroy(_) => DestroyResumesKeepsInv(s, id);
    case Shutdown(_, _) => ShutdownResumesKeepsInv(s, id);
  }

  /** Every step of every interleaving keeps the invariant. */
  lemma StepKeepsInv(s: Pool, e: Event)
    requires Inv(s) && Enabled(s, e)
    ensures Inv(Step(s, e))
  {
    hide Inv, Prewarm, Spawn, CallDestroyWarm, CallShutdown, SpawnSettled, ClaimSettled, SettleCleanup, ShutdownAttempt, FinishShutdown, TaskResumes,
      ResolveWarmRuntime;
    match e
    case PrewarmCalled(r, w) => PrewarmKeepsInv(s, r, w);
    case SpawnCalled(r, w) => SpawnKeepsInv(s, r, w);
    case DestroyWarmCalled => CallDestroyWarmKeepsInv(s);
    case ShutdownCalled => CallShutdownKeepsInv(s);
    case SubprocessSpawned(ok, w) => SpawnSettledKeepsInv(s, ok, w);
    case ClaimAnswered(id, ok, w) =>
      if ok && ResolveWarmRuntime(w, s.tasks[id].request) == Some(s.tasks[id].entry.fingerprint) {
        ClaimSucceedsKeepsInv(s, id, ok, w);
      } else {
        ClaimFailsKeepsInv(s, id, ok, w);
      }
    case DestroySettled(id, ok) => SettleCleanupKeepsInv(s, id, ok);
    case ExpiryFired => TimersKeepInv(s, e);
    case RetryFired(_) => TimersKeepInv(s, e);
    case BackoffEnded(id) => BackoffEndedKeepsInv(s, id);
    case InitializationsClosed(id) => FinishShutdownKeepsInv(s, id);
    case PrewarmResumed => FinishWarmingKeepsInv(s);
    case TaskResumed(id, w) => TaskResumesKeepsInv(s, id, w);
  }
}
