/**
 * Switching a live session to another agent.
 *
 * The handler is one asynchronous transaction over the session's runtime agent,
 * the bridges that carry its events to adapters, and its durable record.  At every
 * `await`, and inside every call of a bridge's `connect`, anything else may run:
 * the session may be terminated or replaced, adapters may come, go, attach or
 * detach, prompts may be counted.  A `World` holds everything the transaction
 * reads or writes together with the behaviour of its surroundings, one `Tick` for
 * each point where the transaction gives up control.
 */
module AgentSwitch {
  import opened Wrappers

  // ---- Session, record and adapters ----

  datatype HistoryEntry = HistoryEntry(agentName: string, agentSessionId: string, promptCount: nat)

  datatype Status = Initializing | Active | Error | Finished | Cancelled

  /** What identifies the runtime agent of a session; `running` says that its process was not torn down. */
  datatype Runtime = Runtime(
    agentName: string,
    agentSessionId: string,
    firstAgent: string,
    history: seq<HistoryEntry>,
    running: bool)

  /** The adapter bindings of a session; each change of one raises its generation. */
  datatype Bindings = Bindings(
    channelId: string,
    attached: seq<string>,
    threads: map<string, string>,
    generations: map<string, nat>)

  datatype Session = Session(
    runtime: Runtime,
    promptCount: nat,
    bindings: Bindings,
    status: Status,
    terminating: bool,
    actionsSuspended: bool)

  datatype Record = Record(
    agentName: string,
    agentSessionId: string,
    firstAgent: string,
    promptCount: nat,
    history: seq<HistoryEntry>,
    status: Status)

  /** The fields one call of `patchRecord` carries. */
  datatype Patch = Patch(
    agentName: string,
    agentSessionId: string,
    firstAgent: string,
    promptCount: nat,
    history: seq<HistoryEntry>,
    status: Option<Status>)

  datatype Lease = Lease(adapterId: string, threadId: string, generation: nat)

  datatype CleanupCall =
    | CleanupAgentActionState
    | CleanupSkillCommands
    | SendNoSkillCommands
    | CleanupSessionState

  /** The optional cleanup methods an adapter has. */
  datatype Adapter = Adapter(cleansActions: bool, cleansSkills: bool, sendsSkills: bool, cleansSessionState: bool)

  // ---- The surroundings ----

  /**
   * What other code does while the transaction waits.  `Attach` is the part of an attachment after its
   * own wait for a thread: by then the adapter may have been attached by another call, or unplugged.
   */
  datatype Action =
    | Terminate(remove: bool)
    | Replace
    | Finish
    | Prompt
    | Attach(adapterId: string, threadId: string)
    | Detach(adapterId: string)
    | Plug(adapterId: string, adapter: Adapter)
    | Unplug(adapterId: string)
    | SwitchAgain

  /**
   * One pause of the transaction: what runs meanwhile, and how the awaited operation
   * ends.  `id` is the agent session id a spawn or resume reports; `wrote` says
   * whether a failing save had already changed the record.
   */
  datatype Tick = Tick(actions: seq<Action>, ok: bool, id: string, wrote: bool)

  const QUIET := Tick([], true, "", false)

  /** What can be observed from outside, in order; `hidden` says that agent actions were suspended at that moment. */
  datatype Event =
    | Starting
    | Captured(leases: seq<Lease>, hadBridges: bool)
    | Cleaned(adapterId: string, call: CleanupCall, hidden: bool)
    | Connected(adapterId: string, hidden: bool)
    | Failed
    | Succeeded(resumed: bool)
    | Gone
    | Rebound(adapterId: string)
    | Refused
    | Overlapped

  datatype World = World(
    session: Session,
    registered: bool,
    adapters: map<string, Adapter>,
    bridges: set<string>,
    record: Option<Record>,
    installed: set<string>,
    resumable: set<string>,
    hasMiddleware: bool,
    hasContext: bool,
    switching: bool,
    log: seq<Event>,
    future: seq<Tick>)

  /** The session is the registered one and has not begun to terminate. */
  predicate Live(w: World) {
    w.registered && !w.session.terminating
  }

  function Generation(b: Bindings, adapterId: string): nat {
    if adapterId in b.generations then b.generations[adapterId] else 0
  }

  /** The thread of an attached adapter; the session's own channel reads as "" when it has none. */
  function ThreadOf(b: Bindings, adapterId: string): Option<string> {
    if adapterId in b.threads then Some(b.threads[adapterId])
    else if adapterId == b.channelId then Some("")
    else None
  }

  predicate Current(b: Bindings, lease: Lease) {
    && lease.adapterId in b.attached
    && ThreadOf(b, lease.adapterId) == Some(lease.threadId)
    && Generation(b, lease.adapterId) == lease.generation
  }

  function Without(xs: seq<string>, x: string): (r: seq<string>)
    ensures forall y :: y in r <==> y in xs && y != x
  {
    if xs == [] then []
    else
      var r := Without(xs[..|xs| - 1], x);
      var last := xs[|xs| - 1];
      assert xs == xs[..|xs| - 1] + [last];
      if last == x then r else r + [last]
  }

  function AttachBinding(b: Bindings, adapterId: string, threadId: string): Bindings {
    b.(generations := b.generations[adapterId := Generation(b, adapterId) + 1],
       threads := b.threads[adapterId := threadId],
       attached := if adapterId in b.attached then b.attached else b.attached + [adapterId])
  }

  function DetachBinding(b: Bindings, adapterId: string): Bindings {
    b.(generations := b.generations[adapterId := Generation(b, adapterId) + 1],
       attached := Without(b.attached, adapterId),
       threads := b.threads - {adapterId})
  }

  function Note(w: World, e: Event): World {
    w.(log := w.log + [e])
  }

  function NoteGone(w: World): World {
    if Live(w) then Note(w, Gone) else w
  }

  function Act(w: World, a: Action): World {
    match a
    case Terminate(remove) =>
      NoteGone(w).(
        session := w.session.(terminating := true, actionsSuspended := true),
        registered := w.registered && !remove,
        bridges := {})
    case Replace => NoteGone(w).(registered := false)
    case Finish =>
      if !w.session.terminating && w.session.status.Active? then
        w.(session := w.session.(status := Finished))
      else w
    case Prompt => w.(session := w.session.(promptCount := w.session.promptCount + 1))
    case Attach(id, thread) =>
      if Live(w) then
        Note(w, Rebound(id)).(
          session := w.session.(bindings := AttachBinding(w.session.bindings, id, thread)),
          bridges := w.bridges + {id})
      else w
    case Detach(id) =>
      if id in w.session.bindings.attached then
        Note(w, Rebound(id)).(
          session := w.session.(bindings := DetachBinding(w.session.bindings, id)),
          bridges := w.bridges - {id})
      else w
    case Plug(id, adapter) => w.(adapters := w.adapters[id := adapter])
    case Unplug(id) => w.(adapters := w.adapters - {id})
    case SwitchAgain => Note(w, if w.switching then Refused else Overlapped)
  }

  function ActAll(w: World, actions: seq<Action>): World
    decreases |actions|
  {
    if actions == [] then w else ActAll(Act(w, actions[0]), actions[1..])
  }

  function Next(w: World): Tick {
    if w.future == [] then QUIET else w.future[0]
  }

  /** Give up control once. */
  function Pause(w: World): World {
    ActAll(w.(future := if w.future == [] then [] else w.future[1..]), Next(w).actions)
  }

  // ---- Bridges and leases ----

  function Distinct(xs: seq<string>): (r: seq<string>)
    ensures forall x :: x in r <==> x in xs
    ensures forall i, j :: 0 <= i < j < |r| ==> r[i] != r[j]
  {
    if xs == [] then []
    else
      var r := Distinct(xs[..|xs| - 1]);
      var last := xs[|xs| - 1];
      assert xs == xs[..|xs| - 1] + [last];
      if last in r then r else r + [last]
  }

  /** One lease for each attached adapter, or none at all when one of them has no thread. */
  function CaptureLeases(b: Bindings): Option<seq<Lease>> {
    LeasesOf(b, Distinct(b.attached))
  }

  function LeasesOf(b: Bindings, ids: seq<string>): (r: Option<seq<Lease>>) {
    if ids == [] then Some([])
    else
      var thread :- ThreadOf(b, ids[0]);
      var rest :- LeasesOf(b, ids[1..]);
      Some([Lease(ids[0], thread, Generation(b, ids[0]))] + rest)
  }

  function Disconnect(w: World): World {
    w.(bridges := {})
  }

  function Connect(w: World, adapterId: string): World {
    Pause(Note(w, Connected(adapterId, w.session.actionsSuspended)).(bridges := w.bridges + {adapterId}))
  }

  /** Bridge every lease that is still current; false when the loop throws half way. */
  function Reconnect(w: World, leases: seq<Lease>): (World, bool)
    decreases |leases|
  {
    if leases == [] then (w, true)
    else if !Current(w.session.bindings, leases[0]) then Reconnect(w, leases[1..])
    else if leases[0].adapterId !in w.adapters || !Live(w) then (w, false)
    else Reconnect(Connect(w, leases[0].adapterId), leases[1..])
  }

  // ---- Cleanup before the switch ----

  function Call(w: World, adapterId: string, call: CleanupCall): (World, nat) {
    var noted := Note(w, Cleaned(adapterId, call, w.session.actionsSuspended));
    (Pause(noted), if Next(noted).ok then 0 else 1)
  }

  /** An adapter's first way to retire action UI, if it has one. */
  function RetiringCall(adapter: Adapter): Option<CleanupCall> {
    if adapter.cleansActions then Some(CleanupAgentActionState)
    else if adapter.cleansSkills then Some(CleanupSkillCommands)
    else if adapter.sendsSkills then Some(SendNoSkillCommands)
    else None
  }

  function CleanAdapter(w: World, lease: Lease): (World, nat) {
    if !Current(w.session.bindings, lease) then (w, 0)
    else if lease.adapterId !in w.adapters then (w, 1)
    else
      var adapter := w.adapters[lease.adapterId];
      var retiring := RetiringCall(adapter);
      var (w1, n1) := if retiring.Some? then Call(w, lease.adapterId, retiring.value) else (w, 0);
      var (w2, n2) := if adapter.cleansSessionState
                      then Call(w1, lease.adapterId, CleanupSessionState)
                      else (w1, 0);
      (w2, n1 + n2)
  }

  function CleanAll(w: World, leases: seq<Lease>): (World, nat)
    decreases |leases|
  {
    if leases == [] then (w, 0)
    else
      var (w1, n1) := CleanAdapter(w, leases[0]);
      var (w2, n2) := CleanAll(w1, leases[1..]);
      (w2, n1 + n2)
  }

  // ---- The durable record ----

  predicate IsTerminal(s: Status) {
    s.Cancelled? || s.Finished?
  }

  /** A terminal status is never overwritten; a patch that tries to is dropped as a whole. */
  function Merge(r: Record, p: Patch): Record {
    if IsTerminal(r.status) && p.status.Some? && p.status.value != r.status then r
    else
      Record(p.agentName, p.agentSessionId, p.firstAgent, p.promptCount, p.history,
             if p.status.Some? then p.status.value else r.status)
  }

  /** Waits for the record's lock, then writes unless the session is gone by then. */
  function PatchRecord(w: World, p: Patch): (World, bool) {
    var w1 := Pause(w);
    if !Live(w1) || w1.record.None? then (w1, true)
    else
      var written := Next(w1).ok || Next(w1).wrote;
      (Pause(w1.(record := if written then Some(Merge(w1.record.value, p)) else w1.record)), Next(w1).ok)
  }

  // ---- Replacing the runtime agent ----

  /** A fresh process, or the resumed one, with the id it reported. */
  datatype Created = Created(id: string, resumed: bool) | NotCreated

  /** Waits for one spawn or resume; a termination wins the race against it. */
  function Spawn(w: World, resumed: bool): (World, Created) {
    var w1 := Pause(w);
    (w1, if w1.session.terminating || !Next(w).ok then NotCreated else Created(Next(w).id, resumed))
  }

  /** Flush the recorder, then build the conversation context; false when the session is gone. */
  function BuildContext(w: World): (World, bool) {
    if !w.hasContext then (w, true)
    else
      var w1 := Pause(w);
      if !Live(w1) then (w1, false)
      else if !Next(w).ok then (w1, true)
      else
        var w2 := Pause(w1);
        (w2, Live(w2))
  }

  function SpawnFresh(w: World): (World, Created) {
    var (w1, go) := BuildContext(w);
    if go then Spawn(w1, false) else (w1, NotCreated)
  }

  /** The replacement factory of the switch. */
  function CreateReplacement(w: World, canResume: bool): (World, Created) {
    if !canResume then SpawnFresh(w)
    else
      var (w1, made) := Spawn(w, true);
      if made.Created? || !Live(w1) then (w1, made) else SpawnFresh(w1)
  }

  /** The factory of the rollback: resume the previous agent, or else spawn it afresh. */
  function RecreatePrevious(w: World): (World, Created) {
    var (w1, made) := Spawn(w, true);
    if made.Created? || !Live(w1) then (w1, made) else Spawn(w1, false)
  }

  function Suspend(w: World): World {
    w.(session := w.session.(actionsSuspended := true))
  }

  function Resume(w: World): World {
    w.(session := w.session.(actionsSuspended := false))
  }

  /** Tear down the current process, once: a process already torn down is not awaited again. */
  function DestroyAgent(w: World): (World, bool) {
    if !w.session.runtime.running then (w, true)
    else
      var w1 := Pause(w);
      if !Next(w).ok then (w1, false)
      else (w1.(session := w1.session.(runtime := w1.session.runtime.(running := false))), true)
  }

  function PushHistory(w: World): World {
    var r := w.session.runtime;
    var entry := HistoryEntry(r.agentName, r.agentSessionId, w.session.promptCount);
    w.(session := w.session.(runtime := r.(history := r.history + [entry])))
  }

  /** `session.switchAgent`: whether it returned, and whether the new agent was resumed. */
  function SwitchAgent(w: World, toAgent: string, canResume: bool): (World, Created) {
    if w.session.terminating || toAgent == w.session.runtime.agentName then (w, NotCreated)
    else
      var (w1, destroyed) := DestroyAgent(PushHistory(Suspend(w)));
      if !destroyed || w1.session.terminating then (w1, NotCreated)
      else
        var (w2, made) := CreateReplacement(w1, canResume);
        if made.NotCreated? then (w2, made)
        else
          var r := w2.session.runtime;
          (w2.(session := w2.session.(
             runtime := r.(agentName := toAgent, agentSessionId := made.id, running := true),
             promptCount := 0)), made)
  }

  /** `session.restoreAgentAfterFailedSwitch`. */
  function RestoreAgent(w: World, fromAgent: string): (World, bool) {
    var (w1, destroyed) := DestroyAgent(w);
    if !destroyed || w1.session.terminating then (w1, false)
    else
      var (w2, made) := RecreatePrevious(w1);
      var r := w2.session.runtime;
      if made.NotCreated? || r.history == [] || r.history[|r.history| - 1].agentName != fromAgent
      then (w2, false)
      else
        var previous := r.history[|r.history| - 1];
        (w2.(session := w2.session.(
           runtime := r.(agentName := fromAgent, agentSessionId := made.id, running := true,
                         history := r.history[..|r.history| - 1]),
           promptCount := previous.promptCount)), true)
  }

  // ---- The transaction ----

  /** What the transaction remembers from before it replaced anything. */
  datatype Plan = Plan(
    toAgent: string,
    fromAgent: string,
    canResume: bool,
    leases: seq<Lease>,
    hadBridges: bool)

  datatype Saved = Saved(firstAgent: string, promptCount: nat, history: seq<HistoryEntry>)

  datatype Outcome =
    | Switched(resumed: bool)
    | InProgress
    | NotFound
    | NotInstalled
    | AlreadyUsing
    | Vetoed
    | Incoherent
    | CleanupFailed
    | RolledBack
    | RollbackFailed
    | FailRejected
    | Terminated

  function SaveIdentity(w: World): Saved {
    Saved(w.session.runtime.firstAgent, w.session.promptCount, w.session.runtime.history)
  }

  function CommitPatch(w: World, plan: Plan): Patch {
    Patch(plan.toAgent, w.session.runtime.agentSessionId, w.session.runtime.firstAgent, 0,
          w.session.runtime.history, None)
  }

  function RollbackPatch(w: World, plan: Plan, saved: Saved): Patch {
    Patch(plan.fromAgent, w.session.runtime.agentSessionId, saved.firstAgent, saved.promptCount,
          saved.history, None)
  }

  function FailurePatch(w: World): Patch {
    var r := w.session.runtime;
    Patch(r.agentName, r.agentSessionId, r.firstAgent, w.session.promptCount, r.history, Some(Error))
  }

  function ReconnectIf(w: World, plan: Plan): (World, bool) {
    if plan.hadBridges then Reconnect(w, plan.leases) else (w, true)
  }

  /** The body of the commit: the new agent, its bridges, its record. */
  function Commit(w: World, plan: Plan): (World, Created) {
    if !Live(w) then (w, NotCreated)
    else
      var (w1, made) := SwitchAgent(w, plan.toAgent, plan.canResume);
      if made.NotCreated? || !Live(w1) then (w1, NotCreated)
      else
        var (w2, bridged) := ReconnectIf(w1, plan);
        if !bridged || !Live(w2) then (w2, NotCreated)
        else
          var (w3, saved) := PatchRecord(w2, CommitPatch(w2, plan));
          if !saved || !Live(w3) then (w3, NotCreated)
          else (Resume(w3), made)
  }

  /** The body of the rollback, in the same order. */
  function Rollback(w: World, plan: Plan, saved: Saved): (World, bool) {
    var (w1, restored) := RestoreAgent(Disconnect(w), plan.fromAgent);
    if !restored || !Live(w1) then (w1, false)
    else
      var (w2, written) := PatchRecord(w1, RollbackPatch(w1, plan, saved));
      if !written || !Live(w2) then (w2, false)
      else ReconnectIf(Resume(w2), plan)
  }

  /** `session.fail` throws for a status that has no transition to error. */
  predicate CanFail(s: Session) {
    s.terminating || !IsTerminal(s.status)
  }

  function Fail(w: World): World {
    if w.session.terminating then w else w.(session := w.session.(status := Error))
  }

  /** `session.destroy`: the terminal boundary comes first, the teardown afterwards. */
  function DestroySession(w: World): World {
    Pause(NoteGone(w).(session := w.session.(terminating := true, actionsSuspended := true)))
  }

  /** Both the switch and its rollback failed. */
  function GiveUp(w: World): (World, Outcome) {
    if !Live(w) then (w, Terminated)
    else if !CanFail(w.session) then (w, FailRejected)
    else
      var w1 := DestroySession(Disconnect(Fail(w)));
      (PatchRecord(w1, FailurePatch(w1)).0, RollbackFailed)
  }

  /** The failed switch: announce it, roll back, and give up when that fails too. */
  function Recover(w: World, plan: Plan, saved: Saved): (World, Outcome) {
    if !Live(w) then (w, Terminated)
    else
      var (w1, restored) := Rollback(Note(w, Failed), plan, saved);
      if restored then (w1, RolledBack) else GiveUp(w1)
  }

  function Execute(w: World, plan: Plan): (World, Outcome) {
    var (w1, made) := Commit(w, plan);
    match made
    case Created(_, resumed) => (Note(w1, Succeeded(resumed)), Switched(resumed))
    case NotCreated => Recover(w1, plan, SaveIdentity(w))
  }

  /** Some adapter could not be cleaned: publish the old state again and report the failure. */
  function AbandonCleanup(w: World, plan: Plan): (World, Outcome) {
    (Note(ReconnectIf(Resume(w), plan).0, Failed), CleanupFailed)
  }

  function HasEntry(history: seq<HistoryEntry>, agentName: string): bool {
    exists i :: 0 <= i < |history| && history[i].agentName == agentName
  }

  /** Everything after the middleware let the switch through. */
  function Proceed(w: World, toAgent: string): (World, Outcome) {
    var started := Note(w, Starting);
    match CaptureLeases(w.session.bindings)
    case None => (started, Incoherent)
    case Some(leases) =>
      var r := w.session.runtime;
      var plan := Plan(toAgent, r.agentName, HasEntry(r.history, toAgent) && toAgent in w.resumable,
                       leases, w.bridges != {});
      var (w1, errors) := CleanAll(Suspend(Disconnect(Note(started, Captured(leases, plan.hadBridges)))), leases);
      if !Live(w1) then (w1, Terminated)
      else if errors > 0 then AbandonCleanup(w1, plan)
      else Execute(w1, plan)
  }

  function DoSwitch(w: World, toAgent: string): (World, Outcome) {
    if !w.registered then (w, NotFound)
    else if toAgent !in w.installed then (w, NotInstalled)
    else if toAgent == w.session.runtime.agentName then (w, AlreadyUsing)
    else
      var w1 := if w.hasMiddleware then Pause(w) else w;
      if !Live(w1) then (w1, Terminated)
      else if w.hasMiddleware && !Next(w).ok then (w1, Vetoed)
      else Proceed(w1, toAgent)
  }

  /** Take the session's lock; the log starts afresh and remembers a session that is already gone. */
  function Begin(w: World): World {
    w.(switching := true, log := if Live(w) then [] else [Gone])
  }

  function Switch(w: World, toAgent: string): (World, Outcome) {
    if w.switching then (w, InProgress)
    else
      var (w1, outcome) := DoSwitch(Begin(w), toAgent);
      (w1.(switching := false), outcome)
  }
}
