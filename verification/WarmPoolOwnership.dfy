/**
 Where every subprocess of the warm pool is, and why a pooled process was handed
 out: two more invariants of every interleaving.
 */
module WarmPoolOwnership {
  import opened JsText
  import opened Wrappers
  import opened Fingerprint
  import opened WarmPool
  import opened WarmPoolInvariant

  // ---------- One place for every process ----------

  predicate InSlot(s: Pool, p: Pid) {
    s.entry.Some? && s.entry.value.pid == p
  }

  /** p is in exactly one of: the slot, the hands of one spawn call, the confirmed-destroyed set. */
  predicate InOnePlace(s: Pool, p: Pid) {
    if InSlot(s, p) then p !in s.handed && p !in s.destroyed
    else p in s.handed <==> p !in s.destroyed
  }

  ghost predicate Accounted(s: Pool) {
    && (forall p: Pid | p < s.nextPid :: InOnePlace(s, p))
    && (s.entry.Some? ==> s.entry.value.pid < s.nextPid)
    && (forall p | p in s.handed :: p < s.nextPid && s.handed[p].entry.pid == p)
    && (forall p | p in s.destroyed :: p < s.nextPid)
  }

  // ---------- Why a process was handed out ----------

  /** The fingerprint in an entry is that of the inputs it was spawned with. */
  ghost predicate Genuine(e: Entry) {
    CreateDefinitionFingerprint(e.runtime.definition, e.request.workingDir, e.request.allowedPaths, e.runtime.environment)
      == Some(e.fingerprint)
  }

  ghost predicate GenuineWarming(w: Option<Warming>) {
    w.Some? && w.value.Spawning? ==>
      var p := w.value;
      CreateDefinitionFingerprint(p.runtime.definition, p.request.workingDir, p.request.allowedPaths, p.runtime.environment)
        == Some(p.fingerprint)
  }

  /** What takeWarm saw when it took the entry. */
  ghost predicate TakenFor(e: Entry, r: Request, w: World) {
    && Genuine(e)
    && e.request.agentName == r.agentName && e.request.workingDir == r.workingDir
    && Claimable(e, r, w)
  }

  ghost predicate Justified(h: Handover) {
    TakenFor(h.entry, h.request, h.atTake) && ResolveWarmRuntime(h.atClaim, h.request) == Some(h.entry.fingerprint)
  }

  /** Handover p belongs to its spawn call: that call holds the process, or has returned it. */
  ghost predicate HeldByItsCall(s: Pool, p: Pid)
    requires p in s.handed
  {
    var h := s.handed[p];
    if h.task in s.tasks then s.tasks[h.task].Claim? && s.tasks[h.task].phase.Claimed? && s.tasks[h.task].entry == h.entry
    else h.task in s.outcomes && s.outcomes[h.task] == Pooled(h.entry)
  }

  ghost predicate ClaimTaskOk(s: Pool, id: Id, t: Task) {
    t.Claim? ==>
      && TakenFor(t.entry, t.request, t.atTake)
      && (t.phase.Claimed? ==> t.entry.pid in s.handed && s.handed[t.entry.pid].task == id && s.handed[t.entry.pid].entry == t.entry)
  }

  ghost predicate OutcomeOk(s: Pool, id: Id)
    requires id in s.outcomes
  {
    && id < s.nextId && id !in s.tasks
    && (s.outcomes[id].Pooled? ==>
          var e := s.outcomes[id].entry;
          e.pid in s.handed && s.handed[e.pid].task == id && s.handed[e.pid].entry == e)
  }

  ghost predicate Evidence(s: Pool) {
    && (s.entry.Some? ==> Genuine(s.entry.value))
    && GenuineWarming(s.warming)
    && (forall id | id in s.tasks :: ClaimTaskOk(s, id, s.tasks[id]))
    && (forall p | p in s.handed :: Justified(s.handed[p]) && s.handed[p].task < s.nextId && HeldByItsCall(s, p))
    && (forall id | id in s.outcomes :: OutcomeOk(s, id))
  }

  ghost predicate Owned(s: Pool) {
    Inv(s) && Accounted(s) && Evidence(s)
  }

  // ---------- Steps that move no process ----------

  predicate SameClaim(a: Task, b: Task) {
    a.Claim? && b.Claim? && a.entry == b.entry && a.request == b.request && a.atTake == b.atTake
    && (a.phase.Claimed? <==> b.phase.Claimed?)
  }

  /** Claims keep their tasks, new calls get new identifiers, and nothing is handed out or answered. */
  ghost predicate KeepsClaims(s: Pool, t: Pool) {
    && t.handed == s.handed && t.outcomes == s.outcomes && s.nextId <= t.nextId
    && (GenuineWarming(s.warming) ==> GenuineWarming(t.warming))
    && (forall id | id in s.tasks && s.tasks[id].Claim? :: id in t.tasks && SameClaim(s.tasks[id], t.tasks[id]))
    && (forall id | id in t.tasks && t.tasks[id].Claim? :: id in s.tasks && s.tasks[id].Claim?)
    && (forall id | id in t.tasks && id !in s.tasks :: id >= s.nextId)
  }

  /** In addition, every process stays where it is. */
  ghost predicate MovesNothing(s: Pool, t: Pool) {
    KeepsClaims(s, t) && t.entry == s.entry && t.nextPid == s.nextPid && t.destroyed == s.destroyed
  }

  lemma EvidenceCarries(s: Pool, t: Pool)
    requires Evidence(s) && KeepsClaims(s, t) && (t.entry.Some? ==> Genuine(t.entry.value))
    ensures Evidence(t)
  {
    forall p | p in t.handed ensures HeldByItsCall(t, p) {
      assert HeldByItsCall(s, p);
    }
    forall id | id in t.outcomes ensures OutcomeOk(t, id) {
      assert OutcomeOk(s, id);
    }
    forall id | id in t.tasks ensures ClaimTaskOk(t, id, t.tasks[id]) {
      assert t.tasks[id].Claim? ==> ClaimTaskOk(s, id, s.tasks[id]);
    }
  }

  lemma MovesNothingKeepsOwned(s: Pool, t: Pool)
    requires Owned(s) && Inv(t) && MovesNothing(s, t)
    ensures Owned(t)
  {
    EvidenceCarries(s, t);
    AccountedCarries(s, t);
  }

  /** id names a call that is not a claim: one of b's, or one made since. */
  ghost predicate NotAClaim(b: Pool, id: Id) {
    if id in b.tasks then !b.tasks[id].Claim? else id >= b.nextId
  }

  lemma BeginCleanupMovesNothing(b: Pool, s: Pool, e: Entry, retry: bool)
    requires MovesNothing(b, s)
    ensures MovesNothing(b, BeginCleanup(s, e, retry).0)
  {
  }

  lemma SetTaskMovesNothing(b: Pool, s: Pool, id: Id, t: Task)
    requires MovesNothing(b, s) && NotAClaim(b, id) && !t.Claim?
    ensures MovesNothing(b, s.(tasks := s.tasks[id := t]))
    ensures MovesNothing(b, s.(tasks := Without(s.tasks, id)))
  {
  }

  lemma DestroySlotMovesNothing(b: Pool, s: Pool, id: Id)
    requires MovesNothing(b, s) && NotAClaim(b, id)
    ensures MovesNothing(b, DestroySlot(s, id))
  {
    SetTaskMovesNothing(b, s, id, Destroy(OnClaim));
    if s.entry.Some? {
      BeginCleanupMovesNothing(b, s, s.entry.value, true);
      var (s1, op) := BeginCleanup(s, s.entry.value, true);
      SetTaskMovesNothing(b, s1, id, Destroy(OnCleanup(if op.Some? then op.value else 0)));
    }
  }

  lemma DestroyMovesNothing(b: Pool, s: Pool, id: Id)
    requires MovesNothing(b, s) && NotAClaim(b, id)
    ensures MovesNothing(b, DestroyAfterWarming(s, id))
    ensures MovesNothing(b, DestroyFromStart(s, id))
  {
    DestroySlotMovesNothing(b, s, id);
    SetTaskMovesNothing(b, s, id, Destroy(OnClaim));
    SetTaskMovesNothing(b, s, id, Destroy(OnWarming));
  }

  lemma ShutdownAttemptMovesNothing(b: Pool, s: Pool, id: Id, attempt: nat)
    requires MovesNothing(b, s) && NotAClaim(b, id)
    ensures MovesNothing(b, ShutdownAttempt(s, id, attempt))
  {
    SetTaskMovesNothing(b, s, id, Shutdown(attempt, OnInitialization));
    if s.entry.Some? {
      BeginCleanupMovesNothing(b, s, s.entry.value, false);
      var (s1, op) := BeginCleanup(s, s.entry.value, false);
      SetTaskMovesNothing(b, s1, id, Shutdown(attempt, if op.Some? then OnCleanup(op.value) else CleanupDone(false)));
    }
  }

  lemma ShutdownMovesNothing(b: Pool, s: Pool, id: Id)
    requires MovesNothing(b, s) && NotAClaim(b, id)
    ensures MovesNothing(b, ShutdownAfterWarming(s, id))
    ensures MovesNothing(b, ShutdownFromStart(s, id))
  {
    ShutdownAttemptMovesNothing(b, s, id, 0);
    SetTaskMovesNothing(b, s, id, Shutdown(0, OnClaim));
    SetTaskMovesNothing(b, s, id, Shutdown(0, OnWarming));
  }

  lemma DestroyResumesMovesNothing(s: Pool, id: Id)
    requires id in s.tasks && s.tasks[id].Destroy? && WokenTask(s.tasks[id])
    ensures MovesNothing(s, DestroyResumes(s, id))
  {
    match s.tasks[id].stage
    case WarmingDone => DestroyMovesNothing(s, s, id);
    case ClaimDone => DestroySlotMovesNothing(s, s, id);
    case _ => SetTaskMovesNothing(s, s, id, Destroy(OnClaim));
  }

  lemma ShutdownResumesMovesNothing(s: Pool, id: Id)
    requires id in s.tasks && s.tasks[id].Shutdown? && WokenTask(s.tasks[id])
    ensures MovesNothing(s, ShutdownResumes(s, id))
  {
    var attempt := s.tasks[id].attempt;
    match s.tasks[id].stage
    case WarmingDone => ShutdownMovesNothing(s, s, id);
    case ClaimDone => ShutdownAttemptMovesNothing(s, s, id, 0);
    case CleanupDone(destroyed) =>
      if destroyed || attempt + 1 < WARM_CLEANUP_MAX_ATTEMPTS {
        SetTaskMovesNothing(s, s, id, Shutdown(attempt, if destroyed then OnInitialization else Backoff));
      } else {
        ShutdownAttemptMovesNothing(s, s, id, attempt + 1);
      }
    case _ =>
  }

  lemma CallsMoveNothing(s: Pool)
    requires Inv(s)
    ensures MovesNothing(s, CallDestroyWarm(s))
    ensures MovesNothing(s, CallShutdown(s))
  {
    hide CreateDefinitionFingerprint;
    DestroyMovesNothing(s, Invalidate(s), s.nextId);
    if s.shutdownOperation.None? {
      ShutdownMovesNothing(s, BeginClosing(s), s.nextId);
    }
  }

  lemma FinishWarmingMovesNothing(b: Pool, s: Pool)
    requires MovesNothing(b, s)
    ensures MovesNothing(b, FinishWarming(s))
  {
  }

  lemma TimersMoveNothing(s: Pool, e: Event)
    requires Enabled(s, e) && (e.ExpiryFired? || e.RetryFired?)
    ensures MovesNothing(s, Step(s, e))
  {
    hide CreateDefinitionFingerprint;
    match e
    case ExpiryFired => BeginCleanupMovesNothing(s, s.(expiry := None), s.expiry.value.entry, true);
    case RetryFired(c) =>
      if s.cleanup.Some? {
        BeginCleanupMovesNothing(s, ClearRetry(s, c), s.cleanup.value.entry, true);
      }
  }

  lemma WakeCleanupMovesNothing(b: Pool, s: Pool, op: Id, ok: bool)
    requires MovesNothing(b, s)
    ensures MovesNothing(b, WakeCleanup(s, op, ok))
  {
    var t := WakeCleanup(s, op, ok);
    forall id | id in b.tasks && b.tasks[id].Claim? ensures id in t.tasks && SameClaim(b.tasks[id], t.tasks[id]) {
      assert SameClaim(b.tasks[id], s.tasks[id]);
    }
  }

  /** A failed destroy leaves the process where it is. */
  lemma FailedDestroyMovesNothing(s: Pool, op: Id)
    requires op in s.operations
    ensures MovesNothing(s, SettleCleanup(s, op, false))
  {
    var o := s.operations[op];
    var t := DestroyFailed(s, op);
    if s.cleanup.Some? && s.cleanup.value.id == o.cleanup {
      var failed := s.(operations := t.operations, cleanup := Some(s.cleanup.value.(state := Failed)));
      assert t == s.(operations := t.operations, cleanup := t.cleanup, retryTimers := t.retryTimers);
    }
    assert MovesNothing(s, t);
    WakeCleanupMovesNothing(s, t, op, false);
  }

  lemma PrewarmMovesNothing(b: Pool, s: Pool, r: Request, w: World)
    requires MovesNothing(b, s)
    requires TasksInv(s)
    ensures MovesNothing(b, Prewarm(s, r, w))
  {
    if s.entry.Some? {
      var s0 := ClearExpiry(s);
      BeginCleanupMovesNothing(b, s0, s.entry.value, true);
      var (s1, op) := BeginCleanup(s0, s.entry.value, true);
      assert NotAClaim(b, s1.nextId);
      SetTaskMovesNothing(b, s1, s1.nextId, Redo(r, op, if op.Some? then None else Some(false)));
    }
  }

  lemma RedoMovesNothing(s: Pool, id: Id, w: World)
    requires Inv(s) && id in s.tasks && s.tasks[id].Redo? && WokenTask(s.tasks[id])
    ensures MovesNothing(s, RedoResumes(s, id, w))
  {
    var s1 := s.(tasks := Without(s.tasks, id));
    SetTaskMovesNothing(s, s, id, Destroy(OnClaim));
    assert TasksInv(s1) by {
      assert forall i | i in s.tasks :: TaskInv(s, i, s.tasks[i]) ==> TaskInv(s1, i, s.tasks[i]);
    }
    PrewarmMovesNothing(s, s1, s.tasks[id].request, w);
  }

  // ---------- Steps that move a process ----------

  lemma ConfirmedDestroyKeepsOwned(s: Pool, op: Id)
    requires Owned(s) && op in s.operations
    ensures Owned(SettleCleanup(s, op, true))
  {
    hide CreateDefinitionFingerprint;
    SettleCleanupKeepsInv(s, op, true);
    OnlyOperation(s, op);
    var u := DestroyConfirmed(s, op);
    var t := SettleCleanup(s, op, true);
    WakeCleanupMovesNothing(u, u, op, true);
    assert KeepsClaims(s, u);
    forall p: Pid | p < t.nextPid ensures InOnePlace(t, p) {
      assert InOnePlace(s, p);
    }
    EvidenceCarries(s, u);
    EvidenceCarries(u, t);
  }

  lemma KeepsClaimsTransitive(s: Pool, u: Pool, t: Pool)
    requires KeepsClaims(s, u) && KeepsClaims(u, t)
    ensures KeepsClaims(s, t)
  {
    forall id | id in s.tasks && s.tasks[id].Claim? ensures id in t.tasks && SameClaim(s.tasks[id], t.tasks[id]) {
      assert SameClaim(s.tasks[id], u.tasks[id]);
    }
  }

  lemma CandidateOutcome(s: Pool, w: World)
    requires s.warming.Some? && s.warming.value.Spawning?
    ensures KeepsClaims(s, SpawnSettled(s, true, w))
    ensures var t := SpawnSettled(s, true, w);
      t.entry == Some(Candidate(s, w)) && t.nextPid == s.nextPid + 1 && t.destroyed == s.destroyed
  {
    hide StillWanted, AcceptCandidate, DiscardCandidate, Genuine, GenuineWarming;
    var e := Candidate(s, w);
    var s1 := s.(entry := Some(e), nextPid := s.nextPid + 1);
    AcceptMovesNothing(s1, s, e);
    DiscardMovesNothing(s1, s, e);
    assert KeepsClaims(s, s1);
    KeepsClaimsTransitive(s, s1, SpawnSettled(s, true, w));
  }

  lemma AcceptMovesNothing(b: Pool, s: Pool, e: Entry)
    requires b == s.(entry := Some(e), nextPid := s.nextPid + 1)
    ensures MovesNothing(b, AcceptCandidate(s, e))
  {
    FinishWarmingMovesNothing(b, b.(expiry := Some(Expiry(e, s.generation))));
  }

  lemma DiscardMovesNothing(b: Pool, s: Pool, e: Entry)
    requires b == s.(entry := Some(e), nextPid := s.nextPid + 1)
    ensures MovesNothing(b, DiscardCandidate(s, e))
  {
    hide BeginCleanup, FinishWarming, CreateDefinitionFingerprint;
    BeginCleanupMovesNothing(b, b, e, !s.closing);
    FinishWarmingMovesNothing(b, BeginCleanup(b, e, !s.closing).0);
  }

  lemma SpawnSettledKeepsOwned(s: Pool, ok: bool, w: World)
    requires Owned(s) && Enabled(s, SubprocessSpawned(ok, w))
    ensures Owned(SpawnSettled(s, ok, w))
  {
    SpawnSettledKeepsInv(s, ok, w);
    var t := SpawnSettled(s, ok, w);
    if !ok {
      FinishWarmingMovesNothing(s, s);
      MovesNothingKeepsOwned(s, t);
    } else {
      CandidateOutcome(s, w);
      EvidenceCarries(s, t);
      forall p: Pid | p < t.nextPid ensures InOnePlace(t, p) {
        assert p < s.nextPid ==> InOnePlace(s, p);
      }
    }
  }

  /** The state after a successful claim: the process leaves the slot for the hands of its spawn call. */
  ghost predicate HandsOver(s: Pool, t: Pool, id: Id, w: World)
    requires id in s.tasks && s.tasks[id].Claim?
  {
    var c := s.tasks[id];
    t == s.(
      claiming := None,
      entry := None,
      tasks := s.tasks[id := c.(phase := Claimed)],
      handed := s.handed[c.entry.pid := Handover(id, c.entry, c.request, c.atTake, w)])
  }

  lemma HandOverAccounts(s: Pool, t: Pool, id: Id, w: World)
    requires Accounted(s) && id in s.tasks && s.tasks[id].Claim? && s.entry == Some(s.tasks[id].entry)
    requires HandsOver(s, t, id, w)
    ensures Accounted(t)
  {
    forall p: Pid | p < t.nextPid ensures InOnePlace(t, p) {
      assert InOnePlace(s, p);
    }
  }

  lemma HandOverEvidence(s: Pool, t: Pool, id: Id, w: World)
    requires Accounted(s) && Evidence(s) && id in s.tasks && id < s.nextId
    requires s.tasks[id].Claim? && !s.tasks[id].phase.Claimed? && s.entry == Some(s.tasks[id].entry)
    requires HandsOver(s, t, id, w)
    requires ResolveWarmRuntime(w, s.tasks[id].request) == Some(s.tasks[id].entry.fingerprint)
    ensures Evidence(t)
  {
    hide CreateDefinitionFingerprint, ResolveWarmRuntime, Claimable, Genuine;
    var pid := s.tasks[id].entry.pid;
    assert InOnePlace(s, pid) && pid !in s.handed;
    forall p | p in t.handed ensures Justified(t.handed[p]) && t.handed[p].task < t.nextId && HeldByItsCall(t, p) {
      if p == pid {
        assert ClaimTaskOk(s, id, s.tasks[id]);
      } else {
        assert HeldByItsCall(s, p);
      }
    }
    forall i | i in t.outcomes ensures OutcomeOk(t, i) {
      assert OutcomeOk(s, i);
    }
    forall i | i in t.tasks ensures ClaimTaskOk(t, i, t.tasks[i]) {
      assert ClaimTaskOk(s, i, s.tasks[i]);
    }
  }

  lemma FailedClaimMovesNothing(s: Pool, id: Id, ok: bool, w: World)
    requires Inv(s) && Enabled(s, ClaimAnswered(id, ok, w))
    requires !(ok && ResolveWarmRuntime(w, s.tasks[id].request) == Some(s.tasks[id].entry.fingerprint))
    ensures MovesNothing(s, ClaimSettled(s, id, ok, w))
  {
    hide CreateDefinitionFingerprint;
    var c := s.tasks[id];
    var released := s.(claiming := if s.claiming == Some(c.entry) then None else s.claiming);
    BeginCleanupMovesNothing(s, released, c.entry, true);
    var s1 := BeginCleanup(released, c.entry, true).0;
    var t := ClaimSettled(s, id, ok, w);
    assert t == s1.(tasks := s1.tasks[id := t.tasks[id]]) && SameClaim(c, t.tasks[id]);
  }

  lemma ClaimSettledKeepsOwned(s: Pool, id: Id, ok: bool, w: World)
    requires Owned(s) && Enabled(s, ClaimAnswered(id, ok, w))
    ensures Owned(ClaimSettled(s, id, ok, w))
  {
    StepKeepsInv(s, ClaimAnswered(id, ok, w));
    assert TaskInv(s, id, s.tasks[id]);
    var t := ClaimSettled(s, id, ok, w);
    if ok && ResolveWarmRuntime(w, s.tasks[id].request) == Some(s.tasks[id].entry.fingerprint) {
      HandOverAccounts(s, t, id, w);
      HandOverEvidence(s, t, id, w);
    } else {
      FailedClaimMovesNothing(s, id, ok, w);
      MovesNothingKeepsOwned(s, t);
    }
  }

  lemma TakeWarmMovesNothing(s: Pool, r: Request, w: World)
    ensures MovesNothing(s, TakeWarm(s, r, w).0)
    ensures TakeWarm(s, r, w).0.tasks == s.tasks
  {
    hide CreateDefinitionFingerprint, ResolveWarmRuntime, Claimable;
    if s.entry.Some? {
      BeginCleanupMovesNothing(s, ClearExpiry(s), s.entry.value, true);
    }
  }

  ghost predicate IdsBelow(s: Pool) {
    forall i | i in s.tasks :: i < s.nextId
  }

  /** A new claim under a new identifier. */
  lemma NewClaimEvidence(s: Pool, t: Pool, c: Task)
    requires Evidence(s) && IdsBelow(s)
    requires c.Claim? && !c.phase.Claimed? && TakenFor(c.entry, c.request, c.atTake)
    requires t == s.(nextId := s.nextId + 1, tasks := s.tasks[s.nextId := c], claimOperation := t.claimOperation)
    ensures Evidence(t)
  {
    hide Genuine, GenuineWarming, TakenFor, Justified;
    forall p | p in t.handed ensures HeldByItsCall(t, p) {
      assert HeldByItsCall(s, p);
    }
    forall i | i in t.outcomes ensures OutcomeOk(t, i) {
      assert OutcomeOk(s, i);
    }
    forall i | i in t.tasks ensures ClaimTaskOk(t, i, t.tasks[i]) {
      assert i in s.tasks ==> ClaimTaskOk(s, i, s.tasks[i]);
    }
  }

  /** An answer from outside the pool under a new identifier. */
  lemma NewOutcomeEvidence(s: Pool, t: Pool, o: Outcome)
    requires Evidence(s) && IdsBelow(s) && !o.Pooled?
    requires t == s.(nextId := s.nextId + 1, outcomes := s.outcomes[s.nextId := o])
    ensures Evidence(t)
  {
    hide Genuine, GenuineWarming, TakenFor, Justified;
    forall p | p in t.handed ensures HeldByItsCall(t, p) {
      assert HeldByItsCall(s, p);
    }
    forall i | i in t.outcomes ensures OutcomeOk(t, i) {
      assert i in s.outcomes ==> OutcomeOk(s, i);
    }
    forall i | i in t.tasks ensures ClaimTaskOk(t, i, t.tasks[i]) {
      assert ClaimTaskOk(s, i, s.tasks[i]);
    }
  }

  lemma SpawnKeepsOwned(s: Pool, r: Request, w: World)
    requires Owned(s)
    ensures Owned(Spawn(s, r, w))
  {
    SpawnKeepsInv(s, r, w);
    SpawnKeepsEvidence(s, r, w);
    SpawnKeepsPlaces(s, r, w);
    AccountedCarries(s, Spawn(s, r, w));
  }

  lemma SpawnKeepsPlaces(s: Pool, r: Request, w: World)
    ensures var t := Spawn(s, r, w);
      t.entry == s.entry && t.nextPid == s.nextPid && t.handed == s.handed && t.destroyed == s.destroyed
  {
    hide TakeWarm;
    TakeWarmMovesNothing(s, r, w);
  }

  lemma AccountedCarries(s: Pool, t: Pool)
    requires Accounted(s)
    requires t.entry == s.entry && t.nextPid == s.nextPid && t.handed == s.handed && t.destroyed == s.destroyed
    ensures Accounted(t)
  {
    assert forall p: Pid | p < s.nextPid :: InOnePlace(s, p) ==> InOnePlace(t, p);
  }

  lemma TakenForRequest(s: Pool, r: Request, w: World)
    requires Evidence(s) && TakeWarm(s, r, w).1
    ensures s.entry.Some? && TakenFor(s.entry.value, r, w)
  {
  }

  lemma SpawnKeepsEvidence(s: Pool, r: Request, w: World)
    requires Inv(s) && Evidence(s)
    ensures Evidence(Spawn(s, r, w))
  {
    hide CreateDefinitionFingerprint;
    TakeWarmMovesNothing(s, r, w);
    var (s1, taken) := TakeWarm(s, r, w);
    EvidenceCarries(s, s1);
    if taken {
      TakenForRequest(s, r, w);
      NewClaimEvidence(s1, Spawn(s, r, w), Claim(s.entry.value, r, w, Calling));
    } else {
      NewOutcomeEvidence(s1, Spawn(s, r, w), FreshOutcome(w, r));
    }
  }

  // ---------- A spawn call returns ----------

  /** The call id leaves the table of calls and gets its answer. */
  ghost predicate Answers(s: Pool, t: Pool, id: Id, o: Outcome) {
    && t.handed == s.handed && t.entry == s.entry && t.warming == s.warming && t.nextId == s.nextId
    && t.outcomes == s.outcomes[id := o]
    && (forall i :: i in t.tasks <==> i in s.tasks && i != id)
    && (forall i | i in t.tasks :: t.tasks[i].Claim? <==> s.tasks[i].Claim?)
    && (forall i | i in t.tasks && t.tasks[i].Claim? :: t.tasks[i] == s.tasks[i])
  }

  lemma AnswerEvidence(s: Pool, t: Pool, id: Id, o: Outcome)
    requires Evidence(s) && IdsBelow(s) && id in s.tasks && s.tasks[id].Claim? && Answers(s, t, id, o)
    requires if s.tasks[id].phase.Claimed? then o == Pooled(s.tasks[id].entry) else !o.Pooled?
    ensures Evidence(t)
  {
    hide Genuine, GenuineWarming, TakenFor, Justified;
    assert ClaimTaskOk(s, id, s.tasks[id]);
    forall p | p in t.handed ensures HeldByItsCall(t, p) {
      assert HeldByItsCall(s, p);
    }
    forall i | i in t.outcomes ensures OutcomeOk(t, i) {
      assert i in s.outcomes ==> OutcomeOk(s, i);
    }
    forall i | i in t.tasks ensures ClaimTaskOk(t, i, t.tasks[i]) {
      assert ClaimTaskOk(s, i, s.tasks[i]);
    }
  }

  lemma PrewarmKeepsOwned(s: Pool, r: Request, w: World)
    requires Owned(s)
    ensures Owned(Prewarm(s, r, w))
  {
    PrewarmKeepsInv(s, r, w);
    PrewarmMovesNothing(s, s, r, w);
    MovesNothingKeepsOwned(s, Prewarm(s, r, w));
  }

  lemma SpawnResumesAnswers(s: Pool, s1: Pool, id: Id, w: World)
    requires id in s.tasks && s.tasks[id].Claim? && WokenTask(s.tasks[id])
    requires s1 == if s.tasks[id].phase.Claimed? then Prewarm(s, s.tasks[id].request, w) else s
    requires id in s1.tasks && s1.tasks[id] == s.tasks[id]
    ensures var c := s.tasks[id];
      Answers(s1, SpawnResumes(s, id, w), id, if c.phase.Claimed? then Pooled(c.entry) else FreshOutcome(w, c.request))
    ensures SpawnResumes(s, id, w).nextPid == s1.nextPid && SpawnResumes(s, id, w).destroyed == s1.destroyed
  {
    hide Prewarm, FreshOutcome;
  }

  lemma SpawnResumesKeepsOwned(s: Pool, id: Id, w: World)
    requires Owned(s) && id in s.tasks && s.tasks[id].Claim? && WokenTask(s.tasks[id])
    ensures Owned(SpawnResumes(s, id, w))
  {
    hide Prewarm, SpawnResumes, ResolveWarmRuntime, Evidence, Accounted;
    SpawnResumesKeepsInv(s, id, w);
    var c := s.tasks[id];
    var s1 := if c.phase.Claimed? then Prewarm(s, c.request, w) else s;
    PrewarmKeepsOwned(s, c.request, w);
    PrewarmKeepsInv(s, c.request, w);
    SpawnResumesAnswers(s, s1, id, w);
    AnswerEvidence(s1, SpawnResumes(s, id, w), id, if c.phase.Claimed? then Pooled(c.entry) else FreshOutcome(w, c.request));
    AccountedCarries(s1, SpawnResumes(s, id, w));
  }

  // ---------- Every step ----------

  lemma TaskResumesKeepsOwned(s: Pool, id: Id, w: World)
    requires Owned(s) && id in s.tasks && WokenTask(s.tasks[id])
    ensures Owned(TaskResumes(s, id, w))
  {
    TaskResumesKeepsInv(s, id, w);
    match s.tasks[id]
    case Claim(_, _, _, _) =>
      SpawnResumesKeepsOwned(s, id, w);
    case Redo(_, _, _) =>
      RedoMovesNothing(s, id, w);
      MovesNothingKeepsOwned(s, RedoResumes(s, id, w));
    case Destroy(_) =>
      DestroyResumesMovesNothing(s, id);
      MovesNothingKeepsOwned(s, DestroyResumes(s, id));
    case Shutdown(_, _) =>
      ShutdownResumesMovesNothing(s, id);
      MovesNothingKeepsOwned(s, ShutdownResumes(s, id));
  }

  /** The events that move no process. */
  predicate QuietEvent(e: Event) {
    e.DestroyWarmCalled? || e.ShutdownCalled? || e.ExpiryFired? || e.RetryFired? || e.BackoffEnded?
    || e.InitializationsClosed? || e.PrewarmResumed?
  }

  lemma QuietStepMovesNothing(s: Pool, e: Event)
    requires Inv(s) && Enabled(s, e) && QuietEvent(e)
    ensures MovesNothing(s, Step(s, e))
  {
    hide CallDestroyWarm, CallShutdown, ShutdownAttempt, ExpiryFires, RetryFires;
    match e
    case DestroyWarmCalled => CallsMoveNothing(s);
    case ShutdownCalled => CallsMoveNothing(s);
    case BackoffEnded(id) => ShutdownAttemptMovesNothing(s, s, id, s.tasks[id].attempt + 1);
    case InitializationsClosed(id) => SetTaskMovesNothing(s, s, id, Destroy(OnClaim));
    case PrewarmResumed => FinishWarmingMovesNothing(s, s);
    case _ => TimersMoveNothing(s, e);
  }

  lemma StepKeepsOwned(s: Pool, e: Event)
    requires Owned(s) && Enabled(s, e)
    ensures Owned(Step(s, e))
  {
    hide CreateDefinitionFingerprint, Evidence, Accounted, Inv, Prewarm, Spawn, SpawnSettled, ClaimSettled, SettleCleanup, TaskResumes;
    if QuietEvent(e) {
      StepKeepsInv(s, e);
      QuietStepMovesNothing(s, e);
      MovesNothingKeepsOwned(s, Step(s, e));
      return;
    }
    match e
    case PrewarmCalled(r, w) => PrewarmKeepsOwned(s, r, w);
    case SpawnCalled(r, w) => SpawnKeepsOwned(s, r, w);
    case SubprocessSpawned(ok, w) => SpawnSettledKeepsOwned(s, ok, w);
    case ClaimAnswered(id, ok, w) => ClaimSettledKeepsOwned(s, id, ok, w);
    case TaskResumed(id, w) => TaskResumesKeepsOwned(s, id, w);
    case DestroySettled(op, ok) =>
      if ok {
        ConfirmedDestroyKeepsOwned(s, op);
      } else {
        SettleCleanupKeepsInv(s, op, false);
        FailedDestroyMovesNothing(s, op);
        MovesNothingKeepsOwned(s, SettleCleanup(s, op, false));
      }
  }

  lemma {:induction false} RunKeepsOwned(s: Pool, events: seq<Event>, t: Pool)
    requires Owned(s) && Run(s, events, t)
    ensures Owned(t)
    decreases |events|
  {
    if events != [] {
      StepKeepsOwned(s, events[0]);
      RunKeepsOwned(Step(s, events[0]), events[1..], t);
    }
  }

  lemma ReachableIsOwned(s: Pool)
    requires Reachable(s)
    ensures Owned(s)
  {
    var events :| Run(EMPTY, events, s);
    RunKeepsOwned(EMPTY, events, s);
  }

  lemma {:induction false} RunExtends(s: Pool, events: seq<Event>, t: Pool, e: Event)
    requires Run(s, events, t) && Enabled(t, e)
    ensures Run(s, events + [e], Step(t, e))
    decreases |events|
  {
    hide Step, Enabled;
    if events == [] {
      assert [e][1..] == [] && Run(Step(s, e), [], Step(t, e));
    } else {
      RunExtends(Step(s, events[0]), events[1..], t, e);
      assert (events + [e])[0] == events[0] && (events + [e])[1..] == events[1..] + [e];
    }
  }

  lemma StepIsReachable(s: Pool, e: Event)
    requires Reachable(s) && Enabled(s, e)
    ensures Reachable(Step(s, e))
  {
    var events :| Run(EMPTY, events, s);
    RunExtends(EMPTY, events, s, e);
  }
}
