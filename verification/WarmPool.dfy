/**
 The single-slot warm pool of agent-manager.ts as a state machine. One step runs
 from one `await` to the next. The state holds the manager's fields, the table
 of suspended async calls, and an account of every subprocess a prewarm spawned.

 Scheduling: a settled promise wakes its awaiters (`Woken` stages). Woken calls
 are microtasks: an I/O completion or a timer can only happen once none is left,
 while a call from outside may come at any moment and woken calls may run in any order.
 */
module WarmPool {
  import opened JsText
  import opened Wrappers
  import opened Fingerprint

  type Pid = nat
  type Id = nat

  const WARM_TTL_MS := 300_000
  const WARM_CLEANUP_MAX_ATTEMPTS := 3

  datatype Request = Request(agentName: Text, workingDir: Text, allowedPaths: seq<Text>)

  /** What catalog.resolve and the environment filter hand over for an agent at one moment. */
  datatype Runtime = Runtime(definition: Json, environment: Json)

  /** Everything a step reads from outside the manager. */
  datatype World = World(resolved: Option<Runtime>, policyGeneration: nat, now: int, dead: bool)

  /** A warm subprocess together with the exact inputs it was spawned with. */
  datatype Entry = Entry(
    pid: Pid,
    request: Request,
    runtime: Runtime,
    createdAt: int,
    policyGeneration: nat,
    fingerprint: Text)

  datatype CleanupState = Pending | Failed

  /** The shared cleanup record; `operation` is the destroy call in flight, if any. */
  datatype Cleanup = Cleanup(id: Id, entry: Entry, state: CleanupState, attempts: nat, operation: Option<Id>)

  /** One call of instance.destroy(), with what its settlement handlers captured. */
  datatype Operation = Operation(cleanup: Id, entry: Entry, scheduleRetry: bool)

  datatype Expiry = Expiry(entry: Entry, generation: nat)

  /** The body of one prewarm after its synchronous part. */
  datatype Warming =
    | Spawning(request: Request, runtime: Runtime, fingerprint: Text, policyGeneration: nat, generation: nat)
    | Discarding(operation: Id)
    | Settled

  datatype ClaimPhase = Calling | Releasing(operation: Id) | Claimed | Rejected

  /** What a suspended destroyWarm or shutdownWarmPool waits for, or that it was woken. */
  datatype Stage =
    | OnWarming | WarmingDone
    | OnClaim | ClaimDone
    | OnCleanup(operation: Id) | CleanupDone(destroyed: bool)
    | Backoff
    | OnInitialization

  datatype Task =
    | Claim(entry: Entry, request: Request, atTake: World, phase: ClaimPhase)
    | Redo(request: Request, operation: Option<Id>, destroyed: Option<bool>)
    | Destroy(stage: Stage)
    | Shutdown(attempt: nat, stage: Stage)

  /** A process given to one spawn call, with what was observed before and after the claim call. */
  datatype Handover = Handover(task: Id, entry: Entry, request: Request, atTake: World, atClaim: World)

  datatype Outcome = Pooled(entry: Entry) | Fresh(runtime: Runtime) | NotInstalled

  datatype Pool = Pool(
    entry: Option<Entry>,
    warming: Option<Warming>,
    expiry: Option<Expiry>,
    generation: nat,
    closing: bool,
    cleanup: Option<Cleanup>,
    claiming: Option<Entry>,
    claimOperation: Option<Id>,
    shutdownOperation: Option<Id>,
    operations: map<Id, Operation>,
    retryTimers: set<Id>,
    tasks: map<Id, Task>,
    nextId: Id,
    nextPid: Pid,
    handed: map<Pid, Handover>,
    destroyed: set<Pid>,
    outcomes: map<Id, Outcome>)

  const EMPTY := Pool(None, None, None, 0, false, None, None, None, None, map[], {}, map[], 0, 0, map[], {}, map[])

  // ---------- Small pieces ----------

  /** resolveWarmRuntime: the runtime and its fingerprint, or null. */
  function ResolveWarmRuntime(w: World, r: Request): Option<Text> {
    if w.resolved.None? then None
    else CreateDefinitionFingerprint(w.resolved.value.definition, r.workingDir, r.allowedPaths, w.resolved.value.environment)
  }

  function Without<K, V>(m: map<K, V>, k: K): map<K, V> {
    m - {k}
  }

  predicate WokenStage(s: Stage) {
    s.WarmingDone? || s.ClaimDone? || s.CleanupDone?
  }

  predicate WokenTask(t: Task) {
    match t
    case Claim(_, _, _, phase) => phase.Claimed? || phase.Rejected?
    case Redo(_, _, destroyed) => destroyed.Some?
    case Destroy(stage) => WokenStage(stage)
    case Shutdown(_, stage) => WokenStage(stage)
  }

  /** No continuation is ready: the microtask queue is drained. */
  predicate Quiet(s: Pool) {
    s.warming != Some(Settled) && forall id | id in s.tasks :: !WokenTask(s.tasks[id])
  }

  function WakeStageOnWarming(s: Stage): Stage { if s.OnWarming? then WarmingDone else s }

  function WakeStageOnClaim(s: Stage): Stage { if s.OnClaim? then ClaimDone else s }

  function WakeStageOnCleanup(s: Stage, op: Id, ok: bool): Stage {
    if s == OnCleanup(op) then CleanupDone(ok) else s
  }

  function WakeOnWarming(t: Task): Task {
    match t
    case Destroy(stage) => Destroy(WakeStageOnWarming(stage))
    case Shutdown(n, stage) => Shutdown(n, WakeStageOnWarming(stage))
    case _ => t
  }

  function WakeOnClaim(t: Task): Task {
    match t
    case Destroy(stage) => Destroy(WakeStageOnClaim(stage))
    case Shutdown(n, stage) => Shutdown(n, WakeStageOnClaim(stage))
    case _ => t
  }

  function WakeOnCleanup(t: Task, op: Id, ok: bool): Task {
    match t
    case Destroy(stage) => Destroy(WakeStageOnCleanup(stage, op, ok))
    case Shutdown(n, stage) => Shutdown(n, WakeStageOnCleanup(stage, op, ok))
    case Claim(e, r, w, phase) => if phase == Releasing(op) then Claim(e, r, w, Rejected) else t
    case Redo(r, o, destroyed) => if o == Some(op) && destroyed.None? then Redo(r, o, Some(ok)) else t
  }

  // ---------- Cleanup ----------

  function ClearExpiry(s: Pool): Pool { s.(expiry := None) }

  function ClearRetry(s: Pool, cleanup: Id): Pool { s.(retryTimers := s.retryTimers - {cleanup}) }

  /**
   beginWarmCleanup. The result is the operation to await, or None for the
   already resolved promise that the branch for another entry returns.
   */
  function BeginCleanup(s: Pool, entry: Entry, scheduleRetry: bool): (Pool, Option<Id>) {
    if s.cleanup.Some? && s.cleanup.value.entry == entry && s.cleanup.value.state.Pending? && s.cleanup.value.operation.Some? then
      (s, s.cleanup.value.operation)
    else if s.cleanup.Some? && s.cleanup.value.entry != entry then
      (s, None)
    else
      var c := if s.cleanup.Some? then s.cleanup.value else Cleanup(s.nextId, entry, Failed, 0, None);
      var s1 := ClearRetry(s, c.id);
      var op := s.nextId + 1;
      (s1.(
        cleanup := Some(Cleanup(c.id, entry, Pending, c.attempts + 1, Some(op))),
        operations := s.operations[op := Operation(c.id, entry, scheduleRetry)],
        nextId := s.nextId + 2),
       Some(op))
  }

  /** scheduleWarmCleanupRetry for the record with the given id. */
  function ScheduleRetry(s: Pool, cleanup: Id): Pool {
    if s.closing || s.cleanup.None? || s.cleanup.value.id != cleanup || !s.cleanup.value.state.Failed?
       || s.cleanup.value.attempts >= WARM_CLEANUP_MAX_ATTEMPTS
    then s
    else s.(retryTimers := s.retryTimers + {cleanup})
  }

  /** The handler for a confirmed destroy. */
  function DestroyConfirmed(s: Pool, op: Id): Pool
    requires op in s.operations
  {
    var o := s.operations[op];
    s.(
      entry := if s.entry == Some(o.entry) then None else s.entry,
      claiming := if s.claiming == Some(o.entry) then None else s.claiming,
      cleanup := if s.cleanup.Some? && s.cleanup.value.id == o.cleanup then None else s.cleanup,
      operations := Without(s.operations, op),
      destroyed := s.destroyed + {o.entry.pid})
  }

  /** The handler for a failed destroy, followed by `finally`; a record that is no longer current has no effect. */
  function DestroyFailed(s: Pool, op: Id): Pool
    requires op in s.operations
  {
    var o := s.operations[op];
    var s1 := s.(operations := Without(s.operations, op));
    if s.cleanup.None? || s.cleanup.value.id != o.cleanup then s1
    else
      var failed := s1.(cleanup := Some(s.cleanup.value.(state := Failed)));
      var armed := if o.scheduleRetry then ScheduleRetry(failed, o.cleanup) else failed;
      armed.(cleanup := Some(s.cleanup.value.(state := Failed, operation := None)))
  }

  /** Everyone who awaited the operation is woken. */
  function WakeCleanup(s: Pool, op: Id, ok: bool): Pool {
    s.(
      warming := if s.warming == Some(Discarding(op)) then Some(Settled) else s.warming,
      tasks := map id | id in s.tasks :: WakeOnCleanup(s.tasks[id], op, ok))
  }

  /** The settlement handlers of one destroy call, its `finally`, and the waking of its awaiters. */
  function SettleCleanup(s: Pool, op: Id, ok: bool): Pool
    requires op in s.operations
  {
    WakeCleanup(if ok then DestroyConfirmed(s, op) else DestroyFailed(s, op), op, ok)
  }

  // ---------- Prewarm ----------

  predicate PrewarmMatches(e: Entry, r: Request, fingerprint: Text) {
    e.request.agentName == r.agentName && e.request.workingDir == r.workingDir
    && multiset(e.request.allowedPaths) == multiset(r.allowedPaths) && e.fingerprint == fingerprint
  }

  /** A prewarm for other inputs sends the ready process to cleanup and waits for it. */
  function Replacing(s: Pool, r: Request): Pool
    requires s.entry.Some?
  {
    var (s1, op) := BeginCleanup(ClearExpiry(s), s.entry.value, true);
    s1.(
      tasks := s1.tasks[s1.nextId := Redo(r, op, if op.Some? then None else Some(false))],
      nextId := s1.nextId + 1)
  }

  /** prewarm, up to the first await of its background part. */
  function Prewarm(s: Pool, r: Request, w: World): Pool {
    if s.closing || s.warming.Some? || s.claiming.Some? || s.cleanup.Some? then s
    else
      var fingerprint := ResolveWarmRuntime(w, r);
      if fingerprint.None? then s
      else if s.entry.Some? then
        if PrewarmMatches(s.entry.value, r, fingerprint.value) then s
        else Replacing(s, r)
      else
        s.(warming := Some(Spawning(r, w.resolved.value, fingerprint.value, w.policyGeneration, s.generation)))
  }

  function FinishWarming(s: Pool): Pool {
    s.(warming := None, tasks := map id | id in s.tasks :: WakeOnWarming(s.tasks[id]))
  }

  /** An invalidated candidate takes the slot and goes straight into owned cleanup. */
  function DiscardCandidate(s: Pool, e: Entry): Pool {
    var (s1, op) := BeginCleanup(s.(entry := Some(e), nextPid := s.nextPid + 1), e, !s.closing);
    if op.Some? then s1.(warming := Some(Discarding(op.value))) else FinishWarming(s1)
  }

  function AcceptCandidate(s: Pool, e: Entry): Pool {
    FinishWarming(s.(entry := Some(e), nextPid := s.nextPid + 1, expiry := Some(Expiry(e, s.generation))))
  }

  function Candidate(s: Pool, w: World): Entry
    requires s.warming.Some? && s.warming.value.Spawning?
  {
    var p := s.warming.value;
    Entry(s.nextPid, p.request, p.runtime, w.now, p.policyGeneration, p.fingerprint)
  }

  /** Nothing happened during the spawn that makes its result unusable. */
  predicate StillWanted(s: Pool, w: World)
    requires s.warming.Some? && s.warming.value.Spawning?
  {
    var p := s.warming.value;
    && !s.closing && s.generation == p.generation && w.policyGeneration == p.policyGeneration
    && ResolveWarmRuntime(w, p.request) == Some(p.fingerprint)
  }

  /** AgentInstance.spawnSubprocess settles for the prewarm in flight. */
  function SpawnSettled(s: Pool, ok: bool, w: World): Pool
    requires s.warming.Some? && s.warming.value.Spawning?
  {
    if !ok then FinishWarming(s)
    else if StillWanted(s, w) then AcceptCandidate(s, Candidate(s, w))
    else DiscardCandidate(s, Candidate(s, w))
  }

  /** The prewarm whose candidate was discarded reaches its `finally`. */
  function PrewarmResumes(s: Pool): Pool
    requires s.warming == Some(Settled)
  {
    FinishWarming(s)
  }

  // ---------- Spawn ----------

  /** The checks of takeWarm that follow the agent and directory match, in their order. */
  predicate Claimable(e: Entry, r: Request, w: World) {
    && e.policyGeneration == w.policyGeneration
    && multiset(e.request.allowedPaths) == multiset(r.allowedPaths)
    && ResolveWarmRuntime(w, r) == Some(e.fingerprint)
    && w.now - e.createdAt <= WARM_TTL_MS
    && !w.dead
  }

  /** takeWarm: the state after it, and whether the entry was taken for claiming. */
  function TakeWarm(s: Pool, r: Request, w: World): (Pool, bool) {
    if s.entry.None? || s.cleanup.Some? || s.claiming.Some? then (s, false)
    else
      var e := s.entry.value;
      if e.request.agentName != r.agentName || e.request.workingDir != r.workingDir then (s, false)
      else if Claimable(e, r, w) then (ClearExpiry(s).(claiming := Some(e)), true)
      else (BeginCleanup(ClearExpiry(s), e, true).0, false)
  }

  function FreshOutcome(w: World, r: Request): Outcome {
    if ResolveWarmRuntime(w, r).None? then NotInstalled else Fresh(w.resolved.value)
  }

  /** spawn, up to its first await: the claim call, or the fresh subprocess outside the pool. */
  function Spawn(s: Pool, r: Request, w: World): Pool {
    var (s1, taken) := TakeWarm(s, r, w);
    var id := s1.nextId;
    if taken then
      s1.(
        tasks := s1.tasks[id := Claim(s.entry.value, r, w, Calling)],
        claimOperation := Some(id),
        nextId := id + 1)
    else
      s1.(outcomes := s1.outcomes[id := FreshOutcome(w, r)], nextId := id + 1)
  }

  /** claimForSession settles. */
  function ClaimSettled(s: Pool, id: Id, ok: bool, w: World): Pool
    requires id in s.tasks && s.tasks[id].Claim? && s.tasks[id].phase.Calling?
  {
    var t := s.tasks[id];
    var released := s.(claiming := if s.claiming == Some(t.entry) then None else s.claiming);
    if ok && ResolveWarmRuntime(w, t.request) == Some(t.entry.fingerprint) then
      released.(
        entry := if s.entry == Some(t.entry) then None else s.entry,
        tasks := s.tasks[id := t.(phase := Claimed)],
        handed := s.handed[t.entry.pid := Handover(id, t.entry, t.request, t.atTake, w)])
    else
      var (s1, op) := BeginCleanup(released, t.entry, true);
      s1.(tasks := s1.tasks[id := t.(phase := if op.Some? then Releasing(op.value) else Rejected)])
  }

  /** spawn resumes after its claim: a refill prewarm and the pooled process, or a fresh spawn. */
  function SpawnResumes(s: Pool, id: Id, w: World): Pool
    requires id in s.tasks && s.tasks[id].Claim? && WokenTask(s.tasks[id])
  {
    var t := s.tasks[id];
    var s1 := if t.phase.Claimed? then Prewarm(s, t.request, w) else s;
    var outcome := if t.phase.Claimed? then Pooled(t.entry) else FreshOutcome(w, t.request);
    s1.(
      claimOperation := None,
      tasks := map i | i in Without(s1.tasks, id) :: WakeOnClaim(s1.tasks[i]),
      outcomes := s1.outcomes[id := outcome])
  }

  /** The continuation of a mismatched prewarm. */
  function RedoResumes(s: Pool, id: Id, w: World): Pool
    requires id in s.tasks && s.tasks[id].Redo? && WokenTask(s.tasks[id])
  {
    var t := s.tasks[id];
    var s1 := s.(tasks := Without(s.tasks, id));
    if t.destroyed.value && !s.closing then Prewarm(s1, t.request, w) else s1
  }

  // ---------- destroyWarm ----------

  /** destroyWarm from the point where it reads the slot. */
  function DestroySlot(s: Pool, id: Id): Pool {
    if s.entry.None? then s.(tasks := Without(s.tasks, id))
    else
      var (s1, op) := BeginCleanup(s, s.entry.value, true);
      if op.Some? then s1.(tasks := s1.tasks[id := Destroy(OnCleanup(op.value))])
      else s1.(tasks := Without(s1.tasks, id))
  }

  function DestroyAfterWarming(s: Pool, id: Id): Pool {
    if s.claimOperation.Some? then s.(tasks := s.tasks[id := Destroy(OnClaim)]) else DestroySlot(s, id)
  }

  function Invalidate(s: Pool): Pool {
    s.(generation := s.generation + 1, expiry := None, nextId := s.nextId + 1)
  }

  function DestroyFromStart(s: Pool, id: Id): Pool {
    if s.warming.Some? then s.(tasks := s.tasks[id := Destroy(OnWarming)]) else DestroyAfterWarming(s, id)
  }

  function CallDestroyWarm(s: Pool): Pool {
    DestroyFromStart(Invalidate(s), s.nextId)
  }

  function DestroyResumes(s: Pool, id: Id): Pool
    requires id in s.tasks && s.tasks[id].Destroy? && WokenTask(s.tasks[id])
  {
    match s.tasks[id].stage
    case WarmingDone => DestroyAfterWarming(s, id)
    case ClaimDone => DestroySlot(s, id)
    case _ => s.(tasks := Without(s.tasks, id))
  }

  // ---------- shutdownWarmPool ----------

  /** The head of the attempt loop with the given attempt number. */
  function ShutdownAttempt(s: Pool, id: Id, attempt: nat): Pool {
    if attempt >= WARM_CLEANUP_MAX_ATTEMPTS || s.entry.None? then
      s.(tasks := s.tasks[id := Shutdown(attempt, OnInitialization)])
    else
      var (s1, op) := BeginCleanup(s, s.entry.value, false);
      if op.Some? then s1.(tasks := s1.tasks[id := Shutdown(attempt, OnCleanup(op.value))])
      else s1.(tasks := s1.tasks[id := Shutdown(attempt, CleanupDone(false))])
  }

  function ShutdownAfterWarming(s: Pool, id: Id): Pool {
    if s.claimOperation.Some? then s.(tasks := s.tasks[id := Shutdown(0, OnClaim)]) else ShutdownAttempt(s, id, 0)
  }

  function BeginClosing(s: Pool): Pool {
    s.(
      closing := true,
      generation := s.generation + 1,
      expiry := None,
      retryTimers := if s.cleanup.Some? then s.retryTimers - {s.cleanup.value.id} else s.retryTimers,
      shutdownOperation := Some(s.nextId),
      nextId := s.nextId + 1)
  }

  function ShutdownFromStart(s: Pool, id: Id): Pool {
    if s.warming.Some? then s.(tasks := s.tasks[id := Shutdown(0, OnWarming)]) else ShutdownAfterWarming(s, id)
  }

  /** A call while an earlier shutdown is still running shares its promise. */
  function CallShutdown(s: Pool): Pool {
    if s.shutdownOperation.Some? then s else ShutdownFromStart(BeginClosing(s), s.nextId)
  }

  function ShutdownResumes(s: Pool, id: Id): Pool
    requires id in s.tasks && s.tasks[id].Shutdown? && WokenTask(s.tasks[id])
  {
    var attempt := s.tasks[id].attempt;
    match s.tasks[id].stage
    case WarmingDone => ShutdownAfterWarming(s, id)
    case ClaimDone => ShutdownAttempt(s, id, 0)
    case CleanupDone(destroyed) =>
      if destroyed then s.(tasks := s.tasks[id := Shutdown(attempt, OnInitialization)])
      else if attempt + 1 < WARM_CLEANUP_MAX_ATTEMPTS then s.(tasks := s.tasks[id := Shutdown(attempt, Backoff)])
      else ShutdownAttempt(s, id, attempt + 1)
    case _ => s
  }

  // ---------- Timers ----------

  function ExpiryFires(s: Pool): Pool
    requires s.expiry.Some?
  {
    var x := s.expiry.value;
    var s1 := s.(expiry := None);
    if s.closing || s.generation != x.generation || s.entry != Some(x.entry) then s1
    else BeginCleanup(s1, x.entry, true).0
  }

  function RetryFires(s: Pool, cleanup: Id): Pool
    requires cleanup in s.retryTimers
  {
    var s1 := ClearRetry(s, cleanup);
    if s.cleanup.None? || s.cleanup.value.id != cleanup || !s.cleanup.value.state.Failed? then s1
    else BeginCleanup(s1, s.cleanup.value.entry, true).0
  }

  // ---------- The machine ----------

  datatype Event =
    | PrewarmCalled(r: Request, w: World)
    | SpawnCalled(r: Request, w: World)
    | DestroyWarmCalled
    | ShutdownCalled
    | SubprocessSpawned(ok: bool, w: World)
    | ClaimAnswered(id: Id, ok: bool, w: World)
    | DestroySettled(id: Id, ok: bool)
    | ExpiryFired
    | RetryFired(id: Id)
    | BackoffEnded(id: Id)
    | InitializationsClosed(id: Id)
    | PrewarmResumed
    | TaskResumed(id: Id, w: World)

  predicate Enabled(s: Pool, e: Event) {
    match e
    case PrewarmCalled(_, _) => true
    case SpawnCalled(_, _) => true
    case DestroyWarmCalled => true
    case ShutdownCalled => true
    case SubprocessSpawned(_, _) => Quiet(s) && s.warming.Some? && s.warming.value.Spawning?
    case ClaimAnswered(id, _, _) => Quiet(s) && id in s.tasks && s.tasks[id].Claim? && s.tasks[id].phase.Calling?
    case DestroySettled(id, _) => Quiet(s) && id in s.operations
    case ExpiryFired => Quiet(s) && s.expiry.Some?
    case RetryFired(id) => Quiet(s) && id in s.retryTimers
    case BackoffEnded(id) => Quiet(s) && id in s.tasks && s.tasks[id].Shutdown? && s.tasks[id].stage.Backoff?
    case InitializationsClosed(id) => Quiet(s) && id in s.tasks && s.tasks[id].Shutdown? && s.tasks[id].stage.OnInitialization?
    case PrewarmResumed => s.warming == Some(Settled)
    case TaskResumed(id, _) => id in s.tasks && WokenTask(s.tasks[id])
  }

  function TaskResumes(s: Pool, id: Id, w: World): Pool
    requires id in s.tasks && WokenTask(s.tasks[id])
  {
    match s.tasks[id]
    case Claim(_, _, _, _) => SpawnResumes(s, id, w)
    case Redo(_, _, _) => RedoResumes(s, id, w)
    case Destroy(_) => DestroyResumes(s, id)
    case Shutdown(_, _) => ShutdownResumes(s, id)
  }

  function FinishShutdown(s: Pool, id: Id): Pool {
    s.(
      tasks := Without(s.tasks, id),
      shutdownOperation := if s.shutdownOperation == Some(id) then None else s.shutdownOperation)
  }

  function Step(s: Pool, e: Event): Pool
    requires Enabled(s, e)
  {
    match e
    case PrewarmCalled(r, w) => Prewarm(s, r, w)
    case SpawnCalled(r, w) => Spawn(s, r, w)
    case DestroyWarmCalled => CallDestroyWarm(s)
    case ShutdownCalled => CallShutdown(s)
    case SubprocessSpawned(ok, w) => SpawnSettled(s, ok, w)
    case ClaimAnswered(id, ok, w) => ClaimSettled(s, id, ok, w)
    case DestroySettled(id, ok) => SettleCleanup(s, id, ok)
    case ExpiryFired => ExpiryFires(s)
    case RetryFired(id) => RetryFires(s, id)
    case BackoffEnded(id) => ShutdownAttempt(s, id, s.tasks[id].attempt + 1)
    case InitializationsClosed(id) => FinishShutdown(s, id)
    case PrewarmResumed => PrewarmResumes(s)
    case TaskResumed(id, w) => TaskResumes(s, id, w)
  }

  /** The events happen one after another from s to t. */
  ghost predicate Run(s: Pool, events: seq<Event>, t: Pool)
    decreases |events|
  {
    if events == [] then s == t
    else Enabled(s, events[0]) && Run(Step(s, events[0]), events[1..], t)
  }

  ghost predicate Reachable(s: Pool) {
    exists events :: Run(EMPTY, events, s)
  }

  // ---------- Status ----------

  datatype Status = Empty | WarmingUp | Ready | ClaimingNow | CleanupPending | CleanupFailed | Closing

  /** getWarmPoolResourceStatus().state */
  function ResourceStatus(s: Pool): Status {
    if s.cleanup.Some? && s.entry == Some(s.cleanup.value.entry) then
      if s.cleanup.value.state.Pending? then CleanupPending else CleanupFailed
    else if s.claiming.Some? then ClaimingNow
    else if s.closing then Closing
    else if s.entry.Some? then Ready
    else if s.warming.Some? then WarmingUp
    else Empty
  }

  /** The entry whose agent and lifetime getWarmPoolResourceStatus() reports, and the attempts of its cleanup. */
  function Reported(s: Pool): (Option<Entry>, Option<nat>) {
    match ResourceStatus(s)
    case CleanupPending => (s.entry, Some(s.cleanup.value.attempts))
    case CleanupFailed => (s.entry, Some(s.cleanup.value.attempts))
    case ClaimingNow => (s.claiming, None)
    case Ready => (s.entry, None)
    case _ => (None, None)
  }
}
