/** What becomes of a suspended call of the warm pool, over every run. */
module WarmPoolCalls {
  import opened JsText
  import opened Wrappers
  import opened Fingerprint
  import opened WarmPool
  import opened WarmPoolInvariant
  import opened WarmPoolOwnership
  import opened WarmPoolRuns
  import opened WarmPoolTheorems
  import opened WarmPoolDecisions

  // ---------- A claim that failed ----------

  /** A claim that is being released has its destroy call in flight, and is rejected when that settles either way. */
  lemma ReleasedClaimIsRejected(s: Pool, id: Id, ok: bool)
    requires Reachable(s) && id in s.tasks && s.tasks[id].Claim? && s.tasks[id].phase.Releasing?
    ensures s.tasks[id].phase.operation in s.operations
    ensures Quiet(s) ==> Enabled(s, DestroySettled(s.tasks[id].phase.operation, ok))
    ensures
      var t := SettleCleanup(s, s.tasks[id].phase.operation, ok);
      id in t.tasks && t.tasks[id] == s.tasks[id].(phase := Rejected)
  {
    ReachableIsOwned(s);
    assert TaskInv(s, id, s.tasks[id]);
    Settles(s, s.tasks[id].phase.operation, ok);
    hide Reachable, DestroyConfirmed, DestroyFailed, Inv;
  }

  /**
   The caller of a rejected claim gets a fresh spawn from the runtime resolved at that moment exactly when the agent is
   installed and its definition and environment can be fingerprinted, and the not-installed error otherwise.
   */
  lemma RejectedClaimSpawnsFresh(s: Pool, id: Id, w: World)
    requires Reachable(s) && id in s.tasks && s.tasks[id].Claim? && s.tasks[id].phase.Rejected?
    requires RecordsObserved(w)
    ensures var t := Step(s, TaskResumed(id, w));
      && id in t.outcomes && t.outcomes == s.outcomes[id := t.outcomes[id]] && AnsweredFresh(t.outcomes[id], w)
      && id !in t.tasks && t.claimOperation.None?
      && t.entry == s.entry && t.warming == s.warming && t.handed == s.handed
  {
    ResolvesExactly(w, s.tasks[id].request);
    hide ResolveWarmRuntime, Resolvable;
  }

  /** The claim is being released or was rejected, or its call was answered without the pool. */
  predicate ClaimLost(s: Pool, id: Id) {
    if id in s.tasks then s.tasks[id].Claim? && (s.tasks[id].phase.Releasing? || s.tasks[id].phase.Rejected?)
    else id in s.outcomes && !s.outcomes[id].Pooled?
  }

  lemma StepKeepsClaimLost(s: Pool, e: Event, id: Id)
    requires Owned(s) && Enabled(s, e) && id < s.nextId && ClaimLost(s, id)
    ensures ClaimLost(Step(s, e), id) && id < Step(s, e).nextId
  {
    hide Inv, Accounted, Evidence, SpawnResumes;
    StepMoves(s, e);
    if Addresses(e, id) {
      AddressedLostClaim(s, e, id);
      hide Step, Enabled;
      LostClaimResumes(s, id, e.w);
    } else {
      hide Step, Enabled;
      StepLeaves(s, e, id);
    }
  }

  lemma AddressedLostClaim(s: Pool, e: Event, id: Id)
    requires Enabled(s, e) && Addresses(e, id) && id in s.tasks && ClaimLost(s, id)
    ensures e.TaskResumed? && WokenTask(s.tasks[id]) && Step(s, e) == SpawnResumes(s, id, e.w)
  {
    hide SpawnResumes;
  }

  lemma LostClaimResumes(s: Pool, id: Id, w: World)
    requires id in s.tasks && ClaimLost(s, id) && WokenTask(s.tasks[id])
    ensures ClaimLost(SpawnResumes(s, id, w), id)
  {
    hide Prewarm, ResolveWarmRuntime;
  }

  lemma {:induction false} ClaimStaysLost(s: Pool, events: seq<Event>, t: Pool, id: Id)
    requires Owned(s) && id < s.nextId && ClaimLost(s, id) && Run(s, events, t)
    ensures ClaimLost(t, id)
    decreases |events|
  {
    hide Owned, Step, ClaimLost;
    if events != [] {
      StepKeepsClaimLost(s, events[0], id);
      StepKeepsOwned(s, events[0]);
      ClaimStaysLost(Step(s, events[0]), events[1..], t, id);
    }
  }

  /** On every run after a failed claim, its call is answered by a fresh spawn or an error, never from the pool. */
  lemma FailedClaimIsNeverPooled(s: Pool, id: Id, ok: bool, w: World, events: seq<Event>, t: Pool)
    requires Reachable(s) && Enabled(s, ClaimAnswered(id, ok, w))
    requires Records(s.tasks[id].entry.runtime) && RecordsObserved(w) && !HandedOver(s, id, ok, w)
    requires Run(Step(s, ClaimAnswered(id, ok, w)), events, t)
    ensures id !in t.tasks ==> id in t.outcomes && (t.outcomes[id].Fresh? || t.outcomes[id].NotInstalled?)
    ensures id in t.tasks ==> t.tasks[id].Claim? && !t.tasks[id].phase.Claimed?
  {
    hide Serves, Step, Owned, Reachable, Records, RecordsObserved, Destroying, HandedOver;
    ClaimIsDecidedExactly(s, id, ok, w);
    ReachableIsOwned(s);
    StepKeepsOwned(s, ClaimAnswered(id, ok, w));
    var s1 := Step(s, ClaimAnswered(id, ok, w));
    OwnedIdsAreOld(s1, id);
    ClaimStaysLost(s1, events, t, id);
  }

  lemma OwnedIdsAreOld(s: Pool, id: Id)
    requires Owned(s) && id in s.tasks
    ensures id < s.nextId
  {
    assert TaskInv(s, id, s.tasks[id]);
  }

  // ---------- Attempts of one shutdown ----------

  /** The shutdown waits for a cleanup. */
  predicate Attempting(s: Pool, id: Id) {
    id in s.tasks && s.tasks[id].Shutdown? && s.tasks[id].stage.OnCleanup?
  }

  /** The cleanup the shutdown waited for failed, and it has not resumed yet. */
  predicate AttemptFailed(s: Pool, id: Id) {
    id in s.tasks && s.tasks[id].Shutdown? && s.tasks[id].stage == CleanupDone(false)
  }

  /** How many cleanup attempts shutdown id begins on a run, and how many of them fail. */
  ghost function Attempts(s: Pool, events: seq<Event>, t: Pool, id: Id): (nat, nat)
    requires Run(s, events, t)
    decreases |events|
  {
    if events == [] then (0, 0)
    else
      var s1 := Step(s, events[0]);
      var (begun, failed) := Attempts(s1, events[1..], t, id);
      (begun + (if Attempting(s1, id) && !Attempting(s, id) then 1 else 0),
       failed + (if AttemptFailed(s1, id) && !AttemptFailed(s, id) then 1 else 0))
  }

  /** What the stage of shutdown id says about the attempts it began and those that failed. */
  predicate Tally(s: Pool, id: Id, begun: nat, failed: nat) {
    if id !in s.tasks then failed <= begun <= 3
    else
      && s.tasks[id].Shutdown?
      && var n := s.tasks[id].attempt;
      match s.tasks[id].stage
      case OnCleanup(_) => begun == n + 1 <= 3 && failed == n
      case CleanupDone(destroyed) => begun == n + 1 <= 3 && failed == (if destroyed then n else n + 1)
      case Backoff => begun == failed == n + 1 < 3
      case OnInitialization => failed == n <= begun <= 3
      case _ => n == begun == failed == 0
  }

  lemma AttemptTallies(s: Pool, id: Id, n: nat)
    requires n <= 3 && CleanupInv(s) && s.claiming.None?
    ensures var t := ShutdownAttempt(s, id, n);
      Tally(t, id, n + (if Attempting(t, id) then 1 else 0), n) && !AttemptFailed(t, id)
  {
    hide BeginCleanup;
    if s.entry.Some? { BeginCleanupKeeps(s, s.entry.value, false); }
  }

  lemma ResumedShutdownTallies(s: Pool, id: Id, begun: nat, failed: nat)
    requires Inv(s) && id in s.tasks && s.tasks[id].Shutdown? && WokenTask(s.tasks[id]) && Tally(s, id, begun, failed)
    ensures var t := ShutdownResumes(s, id);
      && !Attempting(s, id) && !AttemptFailed(t, id)
      && Tally(t, id, begun + (if Attempting(t, id) then 1 else 0), failed)
  {
    WokenMeansNotReady(s, id);
    assert TaskInv(s, id, s.tasks[id]);
    AttemptTallies(s, id, 0);
    if s.tasks[id].stage.CleanupDone? { AttemptTallies(s, id, s.tasks[id].attempt + 1); }
    hide ShutdownAttempt, Inv;
  }

  lemma AddressedStepTallies(s: Pool, e: Event, id: Id, begun: nat, failed: nat)
    requires Inv(s) && Enabled(s, e) && Addresses(e, id) && Tally(s, id, begun, failed)
    ensures var t := Step(s, e);
      && !(Attempting(t, id) && Attempting(s, id)) && !AttemptFailed(t, id)
      && Tally(t, id, begun + (if Attempting(t, id) then 1 else 0), failed)
  {
    hide ShutdownAttempt, ShutdownResumes;
    match e
    case BackoffEnded(_) =>
      BackoffMeansCleanup(s, id);
      AttemptTallies(s, id, s.tasks[id].attempt + 1);
      hide Inv;
    case InitializationsClosed(_) => hide Inv;
    case TaskResumed(_, _) =>
      ResumedShutdownTallies(s, id, begun, failed);
      hide Inv;
    case ClaimAnswered(_, _, _) => hide Inv;
  }

  /** While a shutdown backs off nothing is claimed. */
  lemma BackoffMeansCleanup(s: Pool, id: Id)
    requires Inv(s) && id in s.tasks && s.tasks[id].Shutdown? && s.tasks[id].stage.Backoff?
    ensures s.claiming.None?
  {
    assert TaskInv(s, id, s.tasks[id]);
  }

  lemma StepTallies(s: Pool, e: Event, id: Id, begun: nat, failed: nat)
    requires Inv(s) && Enabled(s, e) && id < s.nextId && Tally(s, id, begun, failed)
    ensures var t := Step(s, e);
      Tally(t, id, begun + (if Attempting(t, id) && !Attempting(s, id) then 1 else 0),
            failed + (if AttemptFailed(t, id) && !AttemptFailed(s, id) then 1 else 0))
  {
    hide Inv;
    if Addresses(e, id) {
      AddressedStepTallies(s, e, id, begun, failed);
      hide Step;
    } else {
      StepLeaves(s, e, id);
      PassiveTallies(s, Step(s, e), e, id, begun, failed);
      hide Step;
    }
  }

  lemma PassiveTallies(s: Pool, t: Pool, e: Event, id: Id, begun: nat, failed: nat)
    requires Tally(s, id, begun, failed) && Leaves(s, t, id, e) && !Addresses(e, id)
    ensures
      Tally(t, id, begun + (if Attempting(t, id) && !Attempting(s, id) then 1 else 0),
            failed + (if AttemptFailed(t, id) && !AttemptFailed(s, id) then 1 else 0))
  {
  }

  lemma {:induction false} RunTallies(s: Pool, events: seq<Event>, t: Pool, id: Id, begun: nat, failed: nat)
    requires Owned(s) && id < s.nextId && Tally(s, id, begun, failed) && Run(s, events, t)
    ensures var (b, f) := Attempts(s, events, t, id);
      Tally(t, id, begun + b, failed + f)
    decreases |events|
  {
    hide Owned, Inv, Step, Tally, Attempting, AttemptFailed;
    if events != [] {
      OwnedHasInv(s);
      StepTallies(s, events[0], id, begun, failed);
      StepMoves(s, events[0]);
      StepKeepsOwned(s, events[0]);
      var s1 := Step(s, events[0]);
      RunTallies(s1, events[1..], t, id,
                 begun + (if Attempting(s1, id) && !Attempting(s, id) then 1 else 0),
                 failed + (if AttemptFailed(s1, id) && !AttemptFailed(s, id) then 1 else 0));
    }
  }

  /**
   On every run a shutdown begins at most three cleanup attempts.  When its attempts are over, either three of them
   failed, or the slot is empty and every process ever spawned was handed out or destroyed.
   */
  lemma ShutdownTriesThreeTimes(s: Pool, events: seq<Event>, t: Pool)
    requires Reachable(s) && s.shutdownOperation.None? && Run(s, [ShutdownCalled] + events, t)
    ensures
      var id := s.nextId;
      var (begun, failed) := Attempts(s, [ShutdownCalled] + events, t, id);
      && failed <= begun <= 3
      && (id in t.tasks && t.tasks[id].Shutdown? && t.tasks[id].stage.OnInitialization? ==>
            || failed == begun == 3
            || (failed < 3 && t.entry.None? && forall p: Pid | p < t.nextPid :: p in t.handed || p in t.destroyed))
  {
    ReachableIsOwned(s);
    hide Run, Attempts, Reachable, Owned, Inv;
    ShutdownTally(s, events, t);
    EmptySlotAccounts(t, s.nextId);
  }

  lemma ShutdownTally(s: Pool, events: seq<Event>, t: Pool)
    requires Owned(s) && s.shutdownOperation.None? && Run(s, [ShutdownCalled] + events, t)
    ensures Owned(t)
    ensures var (begun, failed) := Attempts(s, [ShutdownCalled] + events, t, s.nextId);
      Tally(t, s.nextId, begun, failed)
  {
    hide Owned, Inv, CallShutdown, Run, Attempts, Tally, Attempting, AttemptFailed;
    var id, s1 := s.nextId, CallShutdown(s);
    OwnedHasInv(s);
    FirstAttempts(s, events, t);
    ShutdownCallTallies(s);
    ShutdownCallKeepsOwned(s);
    RunTallies(s1, events, t, id, if Attempting(s1, id) then 1 else 0, 0);
    RunKeepsOwned(s1, events, t);
  }

  lemma ShutdownCallKeepsOwned(s: Pool)
    requires Owned(s)
    ensures Owned(CallShutdown(s))
  {
    hide Owned, CallShutdown;
    StepKeepsOwned(s, ShutdownCalled);
  }

  lemma RunFromFirst(s: Pool, e: Event, events: seq<Event>, t: Pool, id: Id)
    requires Run(s, [e] + events, t)
    ensures Enabled(s, e) && Run(Step(s, e), events, t)
    ensures
      var s1 := Step(s, e);
      var (begun, failed) := Attempts(s1, events, t, id);
      Attempts(s, [e] + events, t, id)
        == (begun + (if Attempting(s1, id) && !Attempting(s, id) then 1 else 0),
            failed + (if AttemptFailed(s1, id) && !AttemptFailed(s, id) then 1 else 0))
  {
    hide Step, Enabled, Attempting, AttemptFailed;
    assert ([e] + events)[1..] == events;
  }

  lemma FirstAttempts(s: Pool, events: seq<Event>, t: Pool)
    requires Inv(s) && s.shutdownOperation.None? && Run(s, [ShutdownCalled] + events, t)
    ensures Run(CallShutdown(s), events, t)
    ensures
      var id, s1 := s.nextId, CallShutdown(s);
      var (begun, failed) := Attempts(s1, events, t, id);
      Attempts(s, [ShutdownCalled] + events, t, id) == (begun + (if Attempting(s1, id) then 1 else 0), failed)
  {
    hide CallShutdown, Run, Attempts;
    RunFromFirst(s, ShutdownCalled, events, t, s.nextId);
    assert s.nextId !in s.tasks;
    ShutdownCallTallies(s);
    hide Inv;
  }

  lemma EmptySlotAccounts(t: Pool, id: Id)
    requires Owned(t)
    ensures id in t.tasks && t.tasks[id].Shutdown? && t.tasks[id].stage.OnInitialization? && t.tasks[id].attempt < 3 ==>
      t.entry.None? && forall p: Pid | p < t.nextPid :: p in t.handed || p in t.destroyed
  {
    if id in t.tasks { assert TaskInv(t, id, t.tasks[id]); }
    forall p: Pid | p < t.nextPid && t.entry.None? ensures p in t.handed || p in t.destroyed {
      assert InOnePlace(t, p);
    }
  }

  lemma ShutdownCallTallies(s: Pool)
    requires Inv(s) && s.shutdownOperation.None?
    ensures
      var id, t := s.nextId, CallShutdown(s);
      id < t.nextId && Tally(t, id, if Attempting(t, id) then 1 else 0, 0) && !AttemptFailed(t, id)
  {
    var b := BeginClosing(s);
    BeginClosingKeeps(s);
    hide ShutdownAttempt, Inv;
    AttemptLeaves(b, s.nextId, 0, s.nextId + 1);
    if b.claimOperation.None? { AttemptTallies(b, s.nextId, 0); }
  }

  // ---------- destroyWarm ----------

  /**
   No process spawned before p is ready or being claimed, and no prewarm of a generation before g is in flight.
   */
  predicate Purged(s: Pool, g: nat, p: Pid) {
    && g <= s.generation && p <= s.nextPid
    && (s.warming.Some? && s.warming.value.Spawning? ==> s.warming.value.generation >= g)
    && (s.entry.Some? && s.entry.value.pid < p ==> s.cleanup.Some?)
  }

  lemma {:induction false} StaysPurged(s: Pool, events: seq<Event>, t: Pool, g: nat, p: Pid)
    requires Owned(s) && Purged(s, g, p) && Run(s, events, t)
    ensures Purged(t, g, p) && Owned(t)
    decreases |events|
  {
    hide Owned, Inv, Step;
    if events != [] {
      OwnedHasInv(s);
      StepMoves(s, events[0]);
      StepKeepsOwned(s, events[0]);
      StaysPurged(Step(s, events[0]), events[1..], t, g, p);
    }
  }

  /** destroyWarm call id waits for the prewarm it found, or no older prewarm than generation g is in flight. */
  predicate Clearing(s: Pool, id: Id, g: nat) {
    && g <= s.generation && id < s.nextId
    && (id in s.tasks ==>
          && s.tasks[id].Destroy?
          && (s.tasks[id].stage.OnWarming? || !(s.warming.Some? && s.warming.value.Spawning? && s.warming.value.generation < g)))
  }

  /** A call that waits for anything but a claim sees no ready and no claimed process. */
  lemma DestroyingMeansNotReady(s: Pool, id: Id)
    requires Inv(s) && id in s.tasks && s.tasks[id].Destroy? && !s.tasks[id].stage.OnClaim?
    ensures s.claiming.None? && (s.entry.Some? ==> s.cleanup.Some?)
  {
  }

  lemma WarmingEnds(s: Pool, e: Event, id: Id)
    requires Inv(s) && Enabled(s, e) && id in s.tasks && s.tasks[id].Destroy? && s.tasks[id].stage.OnWarming?
    ensures var t := Step(s, e);
      id in t.tasks && t.tasks[id].Destroy? && (t.tasks[id].stage.OnWarming? || t.warming.None?)
  {
    assert TaskInv(s, id, s.tasks[id]);
    StepLeaves(s, e, id);
    hide Step, Inv;
  }

  lemma StepKeepsClearing(s: Pool, e: Event, id: Id, g: nat)
    requires Inv(s) && Enabled(s, e) && Clearing(s, id, g)
    ensures Clearing(Step(s, e), id, g)
  {
    hide Inv, Step, DestroyResumes, Enabled;
    StepMoves(s, e);
    if id in s.tasks && s.tasks[id].stage.OnWarming? {
      WarmingEnds(s, e, id);
    } else if Addresses(e, id) {
      AddressedIsSuspended(s, e, id);
      AddressedDestroy(s, e, id);
      ResumedDestroyStage(s, id);
    } else {
      StepLeaves(s, e, id);
    }
  }

  /** From where it reads the slot, destroyWarm returns or waits for a cleanup. */
  lemma SlotStage(s: Pool, id: Id)
    ensures var t := DestroySlot(s, id);
      && (id in t.tasks ==> t.tasks[id].Destroy? && t.tasks[id].stage.OnCleanup?)
      && (id !in t.tasks && s.entry.Some? ==> t.cleanup.Some?)
      && t.warming == s.warming && t.generation == s.generation && t.entry == s.entry && t.nextPid == s.nextPid
      && t.claiming == s.claiming
  {
    hide BeginCleanup;
    if s.entry.Some? { BeginCleanupFrame(s, s.entry.value, true); }
  }

  /** The call returned or waits for something other than a prewarm, and the slot is as before. */
  predicate PastWarming(s: Pool, t: Pool, id: Id) {
    && (id in t.tasks ==> t.tasks[id].Destroy? && !t.tasks[id].stage.OnWarming?)
    && t.warming == s.warming && t.generation == s.generation && t.entry == s.entry
  }

  lemma AfterWarmingStage(s: Pool, id: Id)
    ensures PastWarming(s, DestroySlot(s, id), id) && PastWarming(s, DestroyAfterWarming(s, id), id)
  {
    hide DestroySlot;
    SlotStage(s, id);
  }

  /** A resumed destroyWarm call never waits for a prewarm again. */
  lemma ResumedDestroyStage(s: Pool, id: Id)
    requires id in s.tasks && s.tasks[id].Destroy? && WokenTask(s.tasks[id])
    ensures PastWarming(s, DestroyResumes(s, id), id)
  {
    hide DestroySlot, DestroyAfterWarming;
    AfterWarmingStage(s, id);
  }

  lemma AddressedIsSuspended(s: Pool, e: Event, id: Id)
    requires Enabled(s, e) && Addresses(e, id)
    ensures id in s.tasks
  {
  }

  lemma AddressedDestroy(s: Pool, e: Event, id: Id)
    requires Enabled(s, e) && Addresses(e, id) && id in s.tasks && s.tasks[id].Destroy?
    ensures WokenTask(s.tasks[id]) && Step(s, e) == DestroyResumes(s, id)
  {
    hide DestroyResumes;
  }

  lemma {:induction false} StaysClearing(s: Pool, events: seq<Event>, t: Pool, id: Id, g: nat)
    requires Owned(s) && Clearing(s, id, g) && Run(s, events, t)
    ensures Clearing(t, id, g) && Owned(t)
    decreases |events|
  {
    hide Owned, Inv, Step, Clearing;
    if events != [] {
      OwnedHasInv(s);
      StepKeepsClearing(s, events[0], id, g);
      StepKeepsOwned(s, events[0]);
      StaysClearing(Step(s, events[0]), events[1..], t, id, g);
    }
  }

  /** The step with which destroyWarm returns. */
  lemma ReturnPurges(s: Pool, e: Event, id: Id, g: nat)
    requires Inv(s) && Enabled(s, e) && Clearing(s, id, g) && id in s.tasks && id !in Step(s, e).tasks
    ensures Purged(Step(s, e), g, Step(s, e).nextPid)
  {
    hide Inv, DestroyResumes;
    StepMoves(s, e);
    if !Addresses(e, id) { StepLeaves(s, e, id); }
    AddressedDestroy(s, e, id);
    hide Step, Enabled;
    DestroyingMeansNotReady(s, id);
    ResumedDestroyStage(s, id);
  }

  lemma CallClears(s: Pool)
    requires Inv(s)
    ensures var t := CallDestroyWarm(s);
      && Clearing(t, s.nextId, s.generation + 1)
      && (s.nextId !in t.tasks ==> Purged(t, s.generation + 1, t.nextPid))
  {
    hide DestroyFromStart, Inv;
    FromStartClears(s, Invalidate(s));
  }

  lemma FromStartClears(s: Pool, b: Pool)
    requires Inv(s) && b == Invalidate(s)
    ensures var t := DestroyFromStart(b, s.nextId);
      && Clearing(t, s.nextId, b.generation)
      && (s.nextId !in t.tasks ==> Purged(t, b.generation, t.nextPid))
  {
    assert s.nextId !in s.tasks;
    assert s.claiming.Some? ==> s.claimOperation.Some?;
    hide DestroySlot, Inv;
    SlotStage(b, s.nextId);
    SlotStageIds(b, s.nextId);
  }

  lemma SlotStageIds(s: Pool, id: Id)
    ensures s.nextId <= DestroySlot(s, id).nextId
  {
    hide BeginCleanup;
    if s.entry.Some? { BeginCleanupFrame(s, s.entry.value, true); }
  }

  /**
   Once a destroyWarm call has returned, on every run after it: no prewarm begun before the call is in flight, and no
   process spawned before its return is ready or being claimed, so an old process can only be the one under cleanup.
   */
  lemma DestroyWarmPurges(s: Pool, before: seq<Event>, r: Pool, e: Event, after: seq<Event>, t: Pool)
    requires Reachable(s) && Run(Step(s, DestroyWarmCalled), before, r)
    requires s.nextId in r.tasks && Enabled(r, e) && s.nextId !in Step(r, e).tasks
    requires Run(Step(r, e), after, t)
    ensures Purged(t, s.generation + 1, Step(r, e).nextPid)
  {
    ReachableIsOwned(s);
    CallClears(s);
    StepKeepsOwned(s, DestroyWarmCalled);
    assert Step(s, DestroyWarmCalled) == CallDestroyWarm(s);
    hide Step, Inv, Owned, CallDestroyWarm, Clearing, Purged;
    StaysClearing(CallDestroyWarm(s), before, r, s.nextId, s.generation + 1);
    OwnedHasInv(r);
    ReturnPurges(r, e, s.nextId, s.generation + 1);
    StepKeepsOwned(r, e);
    StaysPurged(Step(r, e), after, t, s.generation + 1, Step(r, e).nextPid);
  }

  /** The same for a call that finds nothing to wait for. */
  lemma IdleDestroyWarmPurges(s: Pool, after: seq<Event>, t: Pool)
    requires Reachable(s) && s.nextId !in Step(s, DestroyWarmCalled).tasks
    requires Run(Step(s, DestroyWarmCalled), after, t)
    ensures Purged(t, s.generation + 1, Step(s, DestroyWarmCalled).nextPid)
  {
    ReachableIsOwned(s);
    CallClears(s);
    StepKeepsOwned(s, DestroyWarmCalled);
    assert Step(s, DestroyWarmCalled) == CallDestroyWarm(s);
    hide Step, Inv, Owned, CallDestroyWarm, Clearing, Purged;
    StaysPurged(CallDestroyWarm(s), after, t, s.generation + 1, CallDestroyWarm(s).nextPid);
  }
}
