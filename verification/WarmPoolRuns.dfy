/** What whole runs of the warm pool do to its slot and to each suspended call. */
module WarmPoolRuns {
  import opened JsText
  import opened Wrappers
  import opened Fingerprint
  import opened WarmPool
  import opened WarmPoolInvariant
  import opened WarmPoolOwnership

  // ---------- The slot ----------

  /** From b to s: a later generation, no old prewarm, no old process back in the slot, no cleanup given up. */
  predicate SlotMove(b: Pool, s: Pool) {
    && b.generation <= s.generation && b.nextPid <= s.nextPid && b.nextId <= s.nextId
    && (s.warming.Some? && s.warming.value.Spawning? ==>
          s.warming == b.warming || s.warming.value.generation >= b.generation)
    && (s.entry.Some? ==> s.entry == b.entry || s.entry.value.pid >= b.nextPid)
    && (s.entry.Some? && s.entry == b.entry && b.cleanup.Some? ==> s.cleanup.Some?)
  }

  /** Whoever calls it, beginWarmCleanup leaves a cleanup record and changes nothing but its bookkeeping. */
  lemma BeginCleanupFrame(s: Pool, e: Entry, retry: bool)
    ensures var t := BeginCleanup(s, e, retry).0;
      && t == s.(cleanup := t.cleanup, operations := t.operations, nextId := t.nextId, retryTimers := t.retryTimers)
      && t.cleanup.Some? && s.nextId <= t.nextId
  {
  }

  lemma BeginCleanupMoves(b: Pool, s: Pool, e: Entry, retry: bool)
    requires SlotMove(b, s)
    ensures SlotMove(b, BeginCleanup(s, e, retry).0) && BeginCleanup(s, e, retry).0.cleanup.Some?
    ensures var t := BeginCleanup(s, e, retry).0;
      t.tasks == s.tasks && t.outcomes == s.outcomes && s.nextId <= t.nextId && t.entry == s.entry
  {
    hide BeginCleanup;
    BeginCleanupFrame(s, e, retry);
  }

  lemma PrewarmMoves(b: Pool, s: Pool, r: Request, w: World)
    requires SlotMove(b, s)
    ensures SlotMove(b, Prewarm(s, r, w))
  {
    hide BeginCleanup, ResolveWarmRuntime, PrewarmMatches;
    if s.entry.Some? { BeginCleanupMoves(b, ClearExpiry(s), s.entry.value, true); }
  }

  lemma SpawnMoves(s: Pool, r: Request, w: World)
    ensures SlotMove(s, Spawn(s, r, w))
  {
    hide BeginCleanup, Claimable, FreshOutcome;
    if s.entry.Some? { BeginCleanupMoves(s, ClearExpiry(s), s.entry.value, true); }
  }

  lemma DestroyMoves(b: Pool, s: Pool, id: Id)
    requires SlotMove(b, s)
    ensures SlotMove(b, DestroySlot(s, id)) && SlotMove(b, DestroyAfterWarming(s, id))
    ensures SlotMove(b, DestroyFromStart(s, id))
  {
    hide BeginCleanup;
    if s.entry.Some? { BeginCleanupMoves(b, s, s.entry.value, true); }
  }

  lemma ShutdownMoves(b: Pool, s: Pool, id: Id, attempt: nat)
    requires SlotMove(b, s)
    ensures SlotMove(b, ShutdownAttempt(s, id, attempt))
    ensures attempt == 0 ==> SlotMove(b, ShutdownAfterWarming(s, id)) && SlotMove(b, ShutdownFromStart(s, id))
  {
    hide BeginCleanup;
    if s.entry.Some? { BeginCleanupMoves(b, s, s.entry.value, false); }
  }

  lemma SpawnSettledMoves(s: Pool, ok: bool, w: World)
    requires s.warming.Some? && s.warming.value.Spawning?
    ensures SlotMove(s, SpawnSettled(s, ok, w))
  {
    hide BeginCleanup, StillWanted, FinishWarming;
    var c := Candidate(s, w);
    var placed := s.(entry := Some(c), nextPid := s.nextPid + 1);
    BeginCleanupMoves(s, placed, c, !s.closing);
    FinishWarmingMoves(s, s);
    FinishWarmingMoves(s, placed.(expiry := Some(Expiry(c, s.generation))));
    FinishWarmingMoves(s, BeginCleanup(placed, c, !s.closing).0);
  }

  lemma FinishWarmingMoves(b: Pool, s: Pool)
    requires SlotMove(b, s)
    ensures SlotMove(b, FinishWarming(s))
  {
  }

  lemma ClaimSettledMoves(s: Pool, id: Id, ok: bool, w: World)
    requires id in s.tasks && s.tasks[id].Claim? && s.tasks[id].phase.Calling?
    ensures SlotMove(s, ClaimSettled(s, id, ok, w))
  {
    hide BeginCleanup, ResolveWarmRuntime;
    var t := s.tasks[id];
    var released := s.(claiming := if s.claiming == Some(t.entry) then None else s.claiming);
    BeginCleanupMoves(s, released, t.entry, true);
  }

  lemma SettleCleanupMoves(s: Pool, op: Id, ok: bool)
    requires Inv(s) && op in s.operations
    ensures SlotMove(s, SettleCleanup(s, op, ok))
    ensures SettleCleanup(s, op, ok).entry.Some? ==> SettleCleanup(s, op, ok).cleanup.Some?
  {
    Settles(s, op, ok);
    hide Inv, CleanupInv;
    if !ok { FailedDestroyMovesNothing(s, op); }
    assert (if ok then DestroyConfirmed(s, op) else DestroyFailed(s, op)).nextPid == s.nextPid;
  }

  lemma TimersMove(s: Pool, e: Event)
    requires Enabled(s, e) && (e.ExpiryFired? || e.RetryFired?)
    ensures SlotMove(s, Step(s, e))
  {
    hide BeginCleanup;
    match e
    case ExpiryFired => BeginCleanupMoves(s, s.(expiry := None), s.expiry.value.entry, true);
    case RetryFired(c) =>
      if s.cleanup.Some? { BeginCleanupMoves(s, ClearRetry(s, c), s.cleanup.value.entry, true); }
  }

  lemma ResumeMoves(s: Pool, id: Id, w: World)
    requires id in s.tasks && WokenTask(s.tasks[id])
    ensures SlotMove(s, TaskResumes(s, id, w))
  {
    hide Prewarm, DestroySlot, ShutdownAttempt, FreshOutcome;
    match s.tasks[id]
    case Claim(_, r, _, _) => PrewarmMoves(s, s, r, w);
    case Redo(r, _, _) => PrewarmMoves(s, s.(tasks := Without(s.tasks, id)), r, w);
    case Destroy(_) => DestroyMoves(s, s, id);
    case Shutdown(n, _) =>
      ShutdownMoves(s, s, id, 0);
      ShutdownMoves(s, s, id, n + 1);
  }

  lemma StepMoves(s: Pool, e: Event)
    requires Inv(s) && Enabled(s, e)
    ensures SlotMove(s, Step(s, e))
  {
    hide Inv, Prewarm, Spawn, SpawnSettled, ClaimSettled, SettleCleanup, ShutdownAttempt, TaskResumes, DestroyFromStart,
      ShutdownFromStart, SlotMove;
    match e
    case PrewarmCalled(r, w) => SameMoves(s, s); PrewarmMoves(s, s, r, w);
    case SpawnCalled(r, w) => SpawnMoves(s, r, w);
    case DestroyWarmCalled => SameMoves(s, Invalidate(s)); DestroyMoves(s, Invalidate(s), s.nextId);
    case ShutdownCalled => SameMoves(s, BeginClosing(s)); ShutdownMoves(s, BeginClosing(s), s.nextId, 0); SameMoves(s, s);
    case SubprocessSpawned(ok, w) => SpawnSettledMoves(s, ok, w);
    case ClaimAnswered(id, ok, w) => ClaimSettledMoves(s, id, ok, w);
    case DestroySettled(op, ok) => SettleCleanupMoves(s, op, ok);
    case BackoffEnded(id) => SameMoves(s, s); ShutdownMoves(s, s, id, s.tasks[id].attempt + 1);
    case InitializationsClosed(id) => SameMoves(s, FinishShutdown(s, id));
    case PrewarmResumed => SameMoves(s, FinishWarming(s));
    case TaskResumed(id, w) => ResumeMoves(s, id, w);
    case _ => TimersMove(s, e);
  }

  lemma SameMoves(b: Pool, s: Pool)
    requires b.generation <= s.generation && b.nextPid == s.nextPid && b.nextId <= s.nextId
    requires s.entry == b.entry && s.cleanup == b.cleanup
    requires s.warming == b.warming || s.warming.None?
    ensures SlotMove(b, s)
  {
  }

  // ---------- A ready process has a lifetime ----------

  /** A process that is neither cleaned up nor claimed has its expiry timer armed. */
  predicate Expires(s: Pool) {
    s.entry.Some? && s.cleanup.None? && s.claiming.None? ==> s.expiry.Some?
  }

  lemma NotReadyExpires(s: Pool)
    requires Inv(s) && (s.closing || s.tasks != map[])
    ensures Expires(s)
  {
  }

  lemma PrewarmExpires(s: Pool, r: Request, w: World)
    requires Expires(s)
    ensures Expires(Prewarm(s, r, w))
  {
    hide BeginCleanup, ResolveWarmRuntime, PrewarmMatches;
    if s.entry.Some? { BeginCleanupMoves(ClearExpiry(s), ClearExpiry(s), s.entry.value, true); }
  }

  lemma TakeWarmExpires(s: Pool, r: Request, w: World)
    requires Expires(s)
    ensures Expires(Spawn(s, r, w))
  {
    hide BeginCleanup, Claimable, FreshOutcome;
    if s.entry.Some? { BeginCleanupMoves(ClearExpiry(s), ClearExpiry(s), s.entry.value, true); }
  }

  lemma SpawnSettledExpires(s: Pool, ok: bool, w: World)
    requires Inv(s) && s.warming.Some? && s.warming.value.Spawning?
    ensures Expires(SpawnSettled(s, ok, w))
  {
    hide BeginCleanup, StillWanted;
    var placed := s.(entry := Some(Candidate(s, w)), nextPid := s.nextPid + 1);
    BeginCleanupMoves(s, placed, Candidate(s, w), !s.closing);
  }

  lemma TimersExpire(s: Pool, e: Event)
    requires Inv(s) && Enabled(s, e) && (e.ExpiryFired? || e.RetryFired?)
    ensures Expires(Step(s, e))
  {
    hide BeginCleanup;
    match e
    case ExpiryFired => BeginCleanupMoves(s.(expiry := None), s.(expiry := None), s.expiry.value.entry, true);
    case RetryFired(c) =>
      if s.cleanup.Some? { BeginCleanupMoves(ClearRetry(s, c), ClearRetry(s, c), s.cleanup.value.entry, true); }
  }

  lemma DestroyWarmExpires(s: Pool)
    requires Inv(s)
    ensures Expires(CallDestroyWarm(s))
  {
    CallDestroyWarmKeepsInv(s);
    var s1 := Invalidate(s);
    hide BeginCleanup, Inv;
    if s1.entry.Some? { BeginCleanupMoves(s1, s1, s1.entry.value, true); }
    if CallDestroyWarm(s).tasks != map[] { NotReadyExpires(CallDestroyWarm(s)); }
    if s1.warming.Some? || s1.claimOperation.Some? { assert s.nextId in CallDestroyWarm(s).tasks; }
  }

  lemma ShutdownCallExpires(s: Pool)
    requires Inv(s) && Expires(s)
    ensures Expires(CallShutdown(s))
  {
    CallShutdownKeepsInv(s);
    hide Inv, BeginCleanup;
    if s.shutdownOperation.None? {
      assert CallShutdown(s).closing;
      NotReadyExpires(CallShutdown(s));
    }
  }

  lemma AttemptHasTask(s: Pool, id: Id, attempt: nat)
    ensures ShutdownAttempt(s, id, attempt).tasks != map[]
  {
    assert id in ShutdownAttempt(s, id, attempt).tasks;
  }

  lemma ResumeExpires(s: Pool, id: Id, w: World)
    requires Inv(s) && id in s.tasks && WokenTask(s.tasks[id])
    ensures Expires(TaskResumes(s, id, w))
  {
    WokenMeansNotReady(s, id);
    ResumeMoves(s, id, w);
    ResumeKeepsEntry(s, id, w);
    hide TaskResumes, Inv;
  }

  lemma ResumeKeepsEntry(s: Pool, id: Id, w: World)
    requires Inv(s) && id in s.tasks && WokenTask(s.tasks[id])
    ensures TaskResumes(s, id, w).entry == s.entry
  {
    match s.tasks[id]
    case Claim(_, r, _, _) => PrewarmMovesNothing(s, s, r, w);
    case Redo(_, _, _) => RedoMovesNothing(s, id, w);
    case Destroy(_) => DestroyResumesMovesNothing(s, id);
    case Shutdown(_, _) => ShutdownResumesMovesNothing(s, id);
  }

  lemma StepExpires(s: Pool, e: Event)
    requires Inv(s) && Expires(s) && Enabled(s, e)
    ensures Expires(Step(s, e))
  {
    StepKeepsInv(s, e);
    match e {
      case PrewarmCalled(r, w) => PrewarmExpires(s, r, w);
      case SpawnCalled(r, w) => TakeWarmExpires(s, r, w);
      case DestroyWarmCalled => DestroyWarmExpires(s);
      case ShutdownCalled => ShutdownCallExpires(s);
      case SubprocessSpawned(ok, w) => SpawnSettledExpires(s, ok, w);
      case ClaimAnswered(id, ok, w) =>
        assert id in Step(s, e).tasks by { hide BeginCleanup, ResolveWarmRuntime; }
        hide ClaimSettled;
        NotReadyExpires(Step(s, e));
      case DestroySettled(op, ok) => SettleCleanupMoves(s, op, ok);
      case BackoffEnded(id) =>
        AttemptHasTask(s, id, s.tasks[id].attempt + 1);
        NotReadyExpires(Step(s, e));
      case InitializationsClosed(id) =>
        assert TaskInv(s, id, s.tasks[id]);
        NotReadyExpires(Step(s, e));
      case PrewarmResumed =>
      case TaskResumed(id, w) => ResumeExpires(s, id, w);
      case _ => TimersExpire(s, e);
    }
  }

  lemma {:induction false} RunExpires(s: Pool, events: seq<Event>, t: Pool)
    requires Owned(s) && Expires(s) && Run(s, events, t)
    ensures Expires(t)
    decreases |events|
  {
    hide Owned, Expires, Step;
    if events != [] {
      OwnedHasInv(s);
      StepExpires(s, events[0]);
      StepKeepsOwned(s, events[0]);
      RunExpires(Step(s, events[0]), events[1..], t);
    }
  }

  lemma OwnedHasInv(s: Pool)
    requires Owned(s)
    ensures Inv(s)
  {
  }

  /** In every reachable state a ready process has its lifetime running, for the current generation. */
  lemma ReadyProcessExpires(s: Pool)
    requires Reachable(s) && ResourceStatus(s) == Ready
    ensures s.expiry == Some(Expiry(s.entry.value, s.generation))
  {
    var events :| Run(EMPTY, events, s);
    RunExpires(EMPTY, events, s);
    ReachableIsOwned(s);
  }

  // ---------- Suspended calls ----------

  /** e resumes or answers the call itself. */
  predicate Addresses(e: Event, id: Id) {
    match e
    case ClaimAnswered(i, _, _) => i == id
    case BackoffEnded(i) => i == id
    case InitializationsClosed(i) => i == id
    case TaskResumed(i, _) => i == id
    case _ => false
  }

  /** What a call may look like after an event that does not address it: at most woken by what it waits for; the end of
      a prewarm wakes it only when none is left. */
  predicate AtMostWoken(a: Task, b: Task, idle: bool, e: Event) {
    || b == a || (idle && b == WakeOnWarming(a)) || b == WakeOnClaim(a)
    || (e.DestroySettled? && b == WakeOnCleanup(a, e.id, e.ok))
  }

  /** Seen from call id: identifiers grow, a finished call stays finished, a suspended one is at most woken. */
  predicate Leaves(b: Pool, s: Pool, id: Id, e: Event) {
    && b.nextId <= s.nextId
    && (id in s.tasks <==> id in b.tasks)
    && (id in b.tasks && !Addresses(e, id) ==> AtMostWoken(b.tasks[id], s.tasks[id], s.warming.None?, e))
    && (id in b.outcomes && id !in b.tasks ==> id in s.outcomes && s.outcomes[id] == b.outcomes[id])
  }

  lemma PrewarmLeaves(s: Pool, r: Request, w: World, id: Id, e: Event)
    requires id < s.nextId
    ensures Leaves(s, Prewarm(s, r, w), id, e)
    ensures id in s.tasks ==> Prewarm(s, r, w).tasks[id] == s.tasks[id]
    ensures Prewarm(s, r, w).outcomes == s.outcomes
  {
    hide BeginCleanup, ResolveWarmRuntime, PrewarmMatches, WakeOnWarming, WakeOnClaim, WakeOnCleanup;
    if s.entry.Some? { BeginCleanupFrame(ClearExpiry(s), s.entry.value, true); }
  }

  lemma SpawnLeaves(s: Pool, r: Request, w: World, id: Id, e: Event)
    requires id < s.nextId
    ensures Leaves(s, Spawn(s, r, w), id, e)
  {
    hide BeginCleanup, Claimable, FreshOutcome, WakeOnWarming, WakeOnClaim, WakeOnCleanup;
    if s.entry.Some? { BeginCleanupFrame(ClearExpiry(s), s.entry.value, true); }
  }

  /** Call id is exactly as it was. */
  predicate Untouched(s: Pool, t: Pool, id: Id) {
    && s.nextId <= t.nextId && t.outcomes == s.outcomes
    && (id in t.tasks <==> id in s.tasks) && (id in s.tasks ==> t.tasks[id] == s.tasks[id])
  }

  /** While call k is served another call is left alone. */
  lemma DestroyLeaves(s: Pool, k: Id, id: Id)
    requires id != k
    ensures Untouched(s, DestroySlot(s, k), id)
    ensures Untouched(s, DestroyAfterWarming(s, k), id)
    ensures Untouched(s, DestroyFromStart(s, k), id)
  {
    hide BeginCleanup;
    if s.entry.Some? { BeginCleanupFrame(s, s.entry.value, true); }
  }

  lemma AttemptLeaves(s: Pool, k: Id, attempt: nat, id: Id)
    requires id != k
    ensures Untouched(s, ShutdownAttempt(s, k, attempt), id)
  {
    hide BeginCleanup;
    if s.entry.Some? { BeginCleanupFrame(s, s.entry.value, false); }
  }

  lemma ShutdownLeaves(s: Pool, k: Id, id: Id)
    requires id != k
    ensures Untouched(s, ShutdownAfterWarming(s, k), id)
    ensures Untouched(s, ShutdownFromStart(s, k), id)
  {
    hide ShutdownAttempt;
    AttemptLeaves(s, k, 0, id);
  }

  lemma FinishWarmingLeaves(s: Pool, id: Id, e: Event)
    ensures Leaves(s, FinishWarming(s), id, e)
  {
  }

  lemma SpawnSettledLeaves(s: Pool, ok: bool, w: World, id: Id, e: Event)
    requires s.warming.Some? && s.warming.value.Spawning?
    ensures Leaves(s, SpawnSettled(s, ok, w), id, e)
  {
    hide BeginCleanup, StillWanted, FinishWarming, WakeOnWarming, WakeOnClaim, WakeOnCleanup;
    var c := Candidate(s, w);
    var placed := s.(entry := Some(c), nextPid := s.nextPid + 1);
    BeginCleanupFrame(placed, c, !s.closing);
    FinishWarmingLeaves(s, id, e);
    FinishWarmingLeaves(placed.(expiry := Some(Expiry(c, s.generation))), id, e);
    FinishWarmingLeaves(BeginCleanup(placed, c, !s.closing).0, id, e);
  }

  lemma ClaimSettledLeaves(s: Pool, k: Id, ok: bool, w: World, id: Id)
    requires k in s.tasks && s.tasks[k].Claim? && s.tasks[k].phase.Calling?
    ensures Leaves(s, ClaimSettled(s, k, ok, w), id, ClaimAnswered(k, ok, w))
  {
    hide BeginCleanup, ResolveWarmRuntime, WakeOnWarming, WakeOnClaim, WakeOnCleanup;
    var t := s.tasks[k];
    BeginCleanupFrame(s.(claiming := if s.claiming == Some(t.entry) then None else s.claiming), t.entry, true);
  }

  lemma SettleCleanupLeaves(s: Pool, op: Id, ok: bool, id: Id)
    requires Inv(s) && op in s.operations
    ensures Leaves(s, SettleCleanup(s, op, ok), id, DestroySettled(op, ok))
  {
    Settles(s, op, ok);
    assert (if ok then DestroyConfirmed(s, op) else DestroyFailed(s, op)).outcomes == s.outcomes by {
      FailedDestroyMovesNothing(s, op);
    }
    hide Inv, CleanupInv, WakeOnWarming, WakeOnClaim, WakeOnCleanup, DestroyConfirmed, DestroyFailed;
  }

  lemma SpawnResumesLeaves(s: Pool, k: Id, w: World, id: Id)
    requires k in s.tasks && s.tasks[k].Claim? && WokenTask(s.tasks[k]) && id < s.nextId && id != k
    ensures Leaves(s, SpawnResumes(s, k, w), id, TaskResumed(k, w))
  {
    hide Prewarm, FreshOutcome, WakeOnWarming, WakeOnClaim, WakeOnCleanup;
    PrewarmLeaves(s, s.tasks[k].request, w, id, TaskResumed(k, w));
  }

  lemma RedoResumesLeaves(s: Pool, k: Id, w: World, id: Id)
    requires k in s.tasks && s.tasks[k].Redo? && WokenTask(s.tasks[k]) && id < s.nextId && id != k
    ensures Leaves(s, RedoResumes(s, k, w), id, TaskResumed(k, w))
  {
    hide Prewarm, WakeOnWarming, WakeOnClaim, WakeOnCleanup;
    PrewarmLeaves(s.(tasks := Without(s.tasks, k)), s.tasks[k].request, w, id, TaskResumed(k, w));
  }

  lemma DestroyResumesLeaves(s: Pool, k: Id, id: Id)
    requires k in s.tasks && s.tasks[k].Destroy? && WokenTask(s.tasks[k]) && id != k
    ensures Untouched(s, DestroyResumes(s, k), id)
  {
    hide DestroySlot, DestroyAfterWarming;
    DestroyLeaves(s, k, id);
  }

  lemma ShutdownResumesLeaves(s: Pool, k: Id, id: Id)
    requires k in s.tasks && s.tasks[k].Shutdown? && WokenTask(s.tasks[k]) && id != k
    ensures Untouched(s, ShutdownResumes(s, k), id)
  {
    hide ShutdownAttempt, ShutdownAfterWarming;
    AttemptLeaves(s, k, s.tasks[k].attempt + 1, id);
    AttemptLeaves(s, k, 0, id);
    ShutdownLeaves(s, k, id);
  }

  /** When one call resumes another is at most woken. */
  lemma ResumeLeaves(s: Pool, k: Id, w: World, id: Id)
    requires k in s.tasks && WokenTask(s.tasks[k]) && id < s.nextId && id != k
    ensures Leaves(s, TaskResumes(s, k, w), id, TaskResumed(k, w))
  {
    hide WakeOnWarming, WakeOnClaim, WakeOnCleanup, SpawnResumes, RedoResumes, DestroyResumes, ShutdownResumes;
    match s.tasks[k]
    case Claim(_, _, _, _) => SpawnResumesLeaves(s, k, w, id);
    case Redo(_, _, _) => RedoResumesLeaves(s, k, w, id);
    case Destroy(_) => DestroyResumesLeaves(s, k, id);
    case Shutdown(_, _) => ShutdownResumesLeaves(s, k, id);
  }

  /** Every step leaves a call alone that it does not address. */
  lemma StepLeaves(s: Pool, e: Event, id: Id)
    requires Inv(s) && Enabled(s, e) && id < s.nextId && !Addresses(e, id)
    ensures Leaves(s, Step(s, e), id, e)
  {
    hide Prewarm, Spawn, SpawnSettled, ClaimSettled, SettleCleanup, ShutdownAttempt, TaskResumes, DestroyFromStart,
      ShutdownFromStart, BeginCleanup, FinishWarming, WakeOnWarming, WakeOnClaim, WakeOnCleanup;
    match e {
      case PrewarmCalled(r, w) => PrewarmLeaves(s, r, w, id, e);
      case SpawnCalled(r, w) => SpawnLeaves(s, r, w, id, e);
      case DestroyWarmCalled => DestroyLeaves(Invalidate(s), s.nextId, id);
      case ShutdownCalled => ShutdownLeaves(BeginClosing(s), s.nextId, id);
      case SubprocessSpawned(ok, w) => SpawnSettledLeaves(s, ok, w, id, e);
      case ClaimAnswered(k, ok, w) => ClaimSettledLeaves(s, k, ok, w, id);
      case DestroySettled(op, ok) => SettleCleanupLeaves(s, op, ok, id);
      case ExpiryFired => BeginCleanupFrame(s.(expiry := None), s.expiry.value.entry, true);
      case RetryFired(c) => if s.cleanup.Some? { BeginCleanupFrame(ClearRetry(s, c), s.cleanup.value.entry, true); }
      case BackoffEnded(k) => AttemptLeaves(s, k, s.tasks[k].attempt + 1, id);
      case InitializationsClosed(k) =>
      case PrewarmResumed => FinishWarmingLeaves(s, id, e);
      case TaskResumed(k, w) =>
        assert TaskInv(s, k, s.tasks[k]);
        ResumeLeaves(s, k, w, id);
    }
  }
}
