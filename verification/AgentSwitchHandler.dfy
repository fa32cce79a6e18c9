/**
 * The agent switch as the handler runs it: step by step over a session object, the
 * bridge registry and the record store.  Every method is tied to the function of
 * `AgentSwitch` that says what it does to the world, so that whatever holds for
 * those functions holds here.
 */
module AgentSwitching {
  import opened Wrappers
  import S = AgentSwitch
  import T = AgentSwitchTheorems

  type Lease = S.Lease
  type Tick = S.Tick

  class Session {
    var agentName: string
    var agentSessionId: string
    var firstAgent: string
    var history: seq<S.HistoryEntry>
    var running: bool
    var promptCount: nat
    const channelId: string
    var attachedAdapters: seq<string>
    var threadIds: map<string, string>
    var attachmentGenerations: map<string, nat>
    var status: S.Status
    var terminating: bool
    var actionsSuspended: bool

    constructor (agentName: string, agentSessionId: string, channelId: string, threadId: string)
      ensures View() == S.Session(
        S.Runtime(agentName, agentSessionId, agentName, [], true), 0,
        S.Bindings(channelId, [channelId], map[channelId := threadId], map[]), S.Initializing, false, false)
    {
      this.agentName, this.agentSessionId, this.firstAgent := agentName, agentSessionId, agentName;
      this.history, this.running, this.promptCount := [], true, 0;
      this.channelId, this.attachedAdapters := channelId, [channelId];
      this.threadIds, this.attachmentGenerations := map[channelId := threadId], map[];
      this.status, this.terminating, this.actionsSuspended := S.Initializing, false, false;
    }

    function Runtime(): S.Runtime
      reads this
    {
      S.Runtime(agentName, agentSessionId, firstAgent, history, running)
    }

    function Bindings(): S.Bindings
      reads this
    {
      S.Bindings(channelId, attachedAdapters, threadIds, attachmentGenerations)
    }

    function View(): S.Session
      reads this
    {
      S.Session(Runtime(), promptCount, Bindings(), status, terminating, actionsSuspended)
    }

    method AttachAdapterBinding(adapterId: string, threadId: string)
      modifies this`attachedAdapters, this`threadIds, this`attachmentGenerations
      ensures Bindings() == S.AttachBinding(old(Bindings()), adapterId, threadId)
    {
      attachmentGenerations := attachmentGenerations[adapterId := S.Generation(Bindings(), adapterId) + 1];
      threadIds := threadIds[adapterId := threadId];
      if adapterId !in attachedAdapters { attachedAdapters := attachedAdapters + [adapterId]; }
    }

    method DetachAdapterBinding(adapterId: string) returns (detached: bool)
      modifies this`attachedAdapters, this`threadIds, this`attachmentGenerations
      ensures detached == (adapterId in old(attachedAdapters))
      ensures Bindings() == if detached then S.DetachBinding(old(Bindings()), adapterId) else old(Bindings())
    {
      detached := adapterId in attachedAdapters;
      if detached {
        attachmentGenerations := attachmentGenerations[adapterId := S.Generation(Bindings(), adapterId) + 1];
        attachedAdapters := S.Without(attachedAdapters, adapterId);
        threadIds := threadIds - {adapterId};
      }
    }
  }

  class AgentSwitchHandler {
    const sessionId: string
    const session: Session
    var registered: bool
    var adapters: map<string, S.Adapter>
    var bridges: set<string>
    var record: Option<S.Record>
    const installed: set<string>
    const resumable: set<string>
    const hasMiddleware: bool
    const hasContext: bool
    var switchingLocks: set<string>
    var log: seq<S.Event>
    var future: seq<Tick>

    constructor (sessionId: string, session: Session, adapters: map<string, S.Adapter>, record: Option<S.Record>,
                 installed: set<string>, resumable: set<string>, hasMiddleware: bool, hasContext: bool,
                 future: seq<Tick>)
      ensures View() == S.World(session.View(), true, adapters, {}, record, installed, resumable,
                                hasMiddleware, hasContext, false, [], future)
      ensures this.session == session
    {
      this.sessionId, this.session, this.registered := sessionId, session, true;
      this.adapters, this.bridges, this.record := adapters, {}, record;
      this.installed, this.resumable := installed, resumable;
      this.hasMiddleware, this.hasContext := hasMiddleware, hasContext;
      this.switchingLocks, this.log, this.future := {}, [], future;
    }

    function View(): S.World
      reads this, session
    {
      S.World(session.View(), registered, adapters, bridges, record, installed, resumable,
              hasMiddleware, hasContext, sessionId in switchingLocks, log, future)
    }

    predicate IsSwitchTargetLive()
      reads this, session
    {
      registered && !session.terminating
    }

    method Emit(e: S.Event)
      modifies this`log
      ensures View() == S.Note(old(View()), e)
    {
      log := log + [e];
    }

    // ---- The surroundings ----

    method Terminate(remove: bool)
      modifies this`log, this`registered, this`bridges, session
      ensures View() == S.Act(old(View()), S.Terminate(remove))
    {
      if IsSwitchTargetLive() { Emit(S.Gone); }
      session.terminating, session.actionsSuspended := true, true;
      registered := registered && !remove;
      bridges := {};
    }

    method Replace()
      modifies this`log, this`registered
      ensures View() == S.Act(old(View()), S.Replace)
    {
      if IsSwitchTargetLive() { Emit(S.Gone); }
      registered := false;
    }

    /** The part of `attachAdapter` after its wait for a thread; it binds again what another call bound meanwhile. */
    method AttachAdapter(adapterId: string, threadId: string)
      modifies this`log, this`bridges, session
      ensures View() == S.Act(old(View()), S.Attach(adapterId, threadId))
    {
      if IsSwitchTargetLive() {
        Emit(S.Rebound(adapterId));
        session.AttachAdapterBinding(adapterId, threadId);
        bridges := bridges + {adapterId};
      }
      hide S.AttachBinding;
    }

    method DetachAdapter(adapterId: string)
      modifies this`log, this`bridges, session
      ensures View() == S.Act(old(View()), S.Detach(adapterId))
    {
      var detached := session.DetachAdapterBinding(adapterId);
      if detached {
        Emit(S.Rebound(adapterId));
        bridges := bridges - {adapterId};
      }
      hide S.DetachBinding;
    }

    method Act(a: S.Action)
      modifies this, session
      ensures View() == S.Act(old(View()), a)
      ensures switchingLocks == old(switchingLocks)
    {
      match a {
        case Terminate(remove) => Terminate(remove);
        case Replace => Replace();
        case Finish => if !session.terminating && session.status.Active? { session.status := S.Finished; }
        case Prompt => session.promptCount := session.promptCount + 1;
        case Attach(id, thread) => AttachAdapter(id, thread);
        case Detach(id) => DetachAdapter(id);
        case Plug(id, adapter) => adapters := adapters[id := adapter];
        case Unplug(id) => adapters := adapters - {id};
        case SwitchAgain => Emit(if sessionId in switchingLocks then S.Refused else S.Overlapped);
      }
    }

    /** One `await`, or one call of foreign code. */
    method Await() returns (tick: Tick)
      modifies this, session
      ensures View() == S.Pause(old(View())) && tick == S.Next(old(View()))
      ensures switchingLocks == old(switchingLocks)
    {
      tick := S.Next(View());
      future := if future == [] then [] else future[1..];
      ghost var start := View();
      var i := 0;
      while i < |tick.actions|
        invariant i <= |tick.actions|
        invariant S.ActAll(View(), tick.actions[i..]) == S.ActAll(start, tick.actions)
        invariant switchingLocks == old(switchingLocks)
      {
        assert tick.actions[i..][1..] == tick.actions[i + 1..];
        Act(tick.actions[i]);
        i := i + 1;
      }
    }

    // ---- Leases and bridges ----

    method CaptureAttachmentLeases() returns (leases: Option<seq<Lease>>)
      ensures leases == S.CaptureLeases(session.Bindings())
    {
      var b := session.Bindings();
      var ids := S.Distinct(session.attachedAdapters);
      var captured: seq<Lease> := [];
      var i := 0;
      assert ids[0..] == ids && Prepend([], S.LeasesOf(b, ids)) == S.LeasesOf(b, ids) by {
        PrependNone(S.LeasesOf(b, ids));
      }
      while i < |ids|
        invariant i <= |ids|
        invariant S.CaptureLeases(b) == Prepend(captured, S.LeasesOf(b, ids[i..]))
      {
        assert ids[i..][1..] == ids[i + 1..];
        var threadId := S.ThreadOf(b, ids[i]);
        if threadId.None? { return None; }
        var lease := S.Lease(ids[i], threadId.value, S.Generation(b, ids[i]));
        PrependOne(captured, lease, S.LeasesOf(b, ids[i + 1..]));
        captured := captured + [lease];
        i := i + 1;
      }
      assert ids[i..] == [] && captured + [] == captured;
      leases := Some(captured);
    }

    method DisconnectSessionBridges() returns (count: nat)
      modifies this`bridges
      ensures View() == S.Disconnect(old(View())) && count == |old(bridges)|
    {
      count := |bridges|;
      bridges := {};
    }

    /** `createBridge(...).connect()`; the connection may run other code before it returns. */
    method ConnectBridge(adapterId: string)
      modifies this, session
      ensures View() == S.Connect(old(View()), adapterId)
      ensures switchingLocks == old(switchingLocks)
    {
      Emit(S.Connected(adapterId, session.actionsSuspended));
      bridges := bridges + {adapterId};
      var _ := Await();
    }

    method ReconnectCurrentAttachments(leases: seq<Lease>) returns (completed: bool)
      modifies this, session
      ensures (View(), completed) == S.Reconnect(old(View()), leases)
      ensures switchingLocks == old(switchingLocks)
    {
      hide S.Connect, S.Current;
      ghost var start := View();
      var i := 0;
      while i < |leases|
        invariant i <= |leases|
        invariant S.Reconnect(View(), leases[i..]) == S.Reconnect(start, leases)
        invariant switchingLocks == old(switchingLocks)
      {
        var lease := leases[i];
        assert leases[i..][0] == lease && leases[i..][1..] == leases[i + 1..];
        if S.Current(session.Bindings(), lease) {
          if lease.adapterId !in adapters || !IsSwitchTargetLive() { return false; }
          ConnectBridge(lease.adapterId);
        }
        i := i + 1;
      }
      completed := true;
    }

    // ---- Cleanup ----

    method CallAdapter(adapterId: string, call: S.CleanupCall) returns (errors: nat)
      modifies this, session
      ensures (View(), errors) == S.Call(old(View()), adapterId, call)
      ensures switchingLocks == old(switchingLocks)
    {
      Emit(S.Cleaned(adapterId, call, session.actionsSuspended));
      var tick := Await();
      errors := if tick.ok then 0 else 1;
    }

    method CleanAttachment(lease: Lease) returns (errors: nat)
      modifies this, session
      ensures (View(), errors) == S.CleanAdapter(old(View()), lease)
      ensures switchingLocks == old(switchingLocks)
    {
      hide S.Call, S.Current;
      errors := 0;
      if !S.Current(session.Bindings(), lease) { return; }
      if lease.adapterId !in adapters { return 1; }
      var adapter := adapters[lease.adapterId];
      if adapter.cleansActions {
        errors := CallAdapter(lease.adapterId, S.CleanupAgentActionState);
      } else if adapter.cleansSkills {
        errors := CallAdapter(lease.adapterId, S.CleanupSkillCommands);
      } else if adapter.sendsSkills {
        errors := CallAdapter(lease.adapterId, S.SendNoSkillCommands);
      }
      if adapter.cleansSessionState {
        var more := CallAdapter(lease.adapterId, S.CleanupSessionState);
        errors := errors + more;
      }
    }

    method CleanAttachments(leases: seq<Lease>) returns (cleanupErrors: nat)
      modifies this, session
      ensures (View(), cleanupErrors) == S.CleanAll(old(View()), leases)
      ensures switchingLocks == old(switchingLocks)
    {
      hide S.CleanAdapter;
      ghost var start := View();
      cleanupErrors := 0;
      var i := 0;
      while i < |leases|
        invariant i <= |leases|
        invariant
          var (w, n) := S.CleanAll(View(), leases[i..]);
          (w, cleanupErrors + n) == S.CleanAll(start, leases)
        invariant switchingLocks == old(switchingLocks)
      {
        assert leases[i..][0] == leases[i] && leases[i..][1..] == leases[i + 1..];
        var errors := CleanAttachment(leases[i]);
        cleanupErrors := cleanupErrors + errors;
        i := i + 1;
      }
    }

    // ---- The record ----

    method PatchRecord(patch: S.Patch) returns (ok: bool)
      modifies this, session
      ensures (View(), ok) == S.PatchRecord(old(View()), patch)
      ensures switchingLocks == old(switchingLocks)
    {
      hide S.Pause, S.Merge;
      var _ := Await();
      if !IsSwitchTargetLive() || record.None? { return true; }
      var save := S.Next(View());
      if save.ok || save.wrote { record := Some(S.Merge(record.value, patch)); }
      var _ := Await();
      ok := save.ok;
    }

    // ---- Processes ----

    method Spawn(resumed: bool) returns (made: S.Created)
      modifies this, session
      ensures (View(), made) == S.Spawn(old(View()), resumed)
      ensures switchingLocks == old(switchingLocks)
    {
      hide S.Pause;
      var tick := Await();
      made := if session.terminating || !tick.ok then S.NotCreated else S.Created(tick.id, resumed);
    }

    method SpawnFresh() returns (made: S.Created)
      modifies this, session
      ensures (View(), made) == S.SpawnFresh(old(View()))
      ensures switchingLocks == old(switchingLocks)
    {
      hide S.Pause, S.Spawn;
      if hasContext {
        var flushed := Await();
        if !IsSwitchTargetLive() { return S.NotCreated; }
        if flushed.ok {
          var _ := Await();
          if !IsSwitchTargetLive() { return S.NotCreated; }
        }
      }
      made := Spawn(false);
    }

    method CreateReplacement(canResume: bool) returns (made: S.Created)
      modifies this, session
      ensures (View(), made) == S.CreateReplacement(old(View()), canResume)
      ensures switchingLocks == old(switchingLocks)
    {
      hide S.Spawn, S.SpawnFresh;
      if canResume {
        made := Spawn(true);
        if made.Created? || !IsSwitchTargetLive() { return; }
      }
      made := SpawnFresh();
    }

    method RecreatePrevious() returns (made: S.Created)
      modifies this, session
      ensures (View(), made) == S.RecreatePrevious(old(View()))
      ensures switchingLocks == old(switchingLocks)
    {
      hide S.Spawn;
      made := Spawn(true);
      if made.Created? || !IsSwitchTargetLive() { return; }
      made := Spawn(false);
    }

    method DestroyAgent() returns (destroyed: bool)
      modifies this, session
      ensures (View(), destroyed) == S.DestroyAgent(old(View()))
      ensures switchingLocks == old(switchingLocks)
    {
      hide S.Pause;
      if !session.running { return true; }
      var tick := Await();
      if !tick.ok { return false; }
      session.running := false;
      destroyed := true;
    }

    /** The synchronous start of a replacement: hide the old actions, record the old agent. */
    method RecordCurrentAgent()
      modifies session
      ensures View() == S.PushHistory(S.Suspend(old(View())))
    {
      session.actionsSuspended := true;
      session.history :=
        session.history + [S.HistoryEntry(session.agentName, session.agentSessionId, session.promptCount)];
    }

    method InstallAgent(name: string, id: string, history: seq<S.HistoryEntry>, promptCount: nat)
      modifies session
      ensures
        var s := old(session.View());
        session.View() == s.(
          runtime := s.runtime.(agentName := name, agentSessionId := id, running := true, history := history),
          promptCount := promptCount)
    {
      session.agentName, session.agentSessionId, session.running := name, id, true;
      session.history := history;
      session.promptCount := promptCount;
    }

    method SwitchAgent(toAgent: string, canResume: bool) returns (made: S.Created)
      modifies this, session
      ensures (View(), made) == S.SwitchAgent(old(View()), toAgent, canResume)
      ensures switchingLocks == old(switchingLocks)
    {
      hide S.DestroyAgent, S.CreateReplacement, S.PushHistory;
      if session.terminating || toAgent == session.agentName { return S.NotCreated; }
      RecordCurrentAgent();
      var destroyed := DestroyAgent();
      if !destroyed || session.terminating { return S.NotCreated; }
      made := CreateReplacement(canResume);
      if made.Created? { InstallAgent(toAgent, made.id, session.history, 0); }
    }

    method RestoreAgentAfterFailedSwitch(fromAgent: string) returns (restored: bool)
      modifies this, session
      ensures (View(), restored) == S.RestoreAgent(old(View()), fromAgent)
      ensures switchingLocks == old(switchingLocks)
    {
      hide S.DestroyAgent, S.RecreatePrevious;
      var destroyed := DestroyAgent();
      if !destroyed || session.terminating { return false; }
      var made := RecreatePrevious();
      if made.NotCreated? { return false; }
      var n := |session.history|;
      if n == 0 || session.history[n - 1].agentName != fromAgent { return false; }
      var previous := session.history[n - 1];
      InstallAgent(fromAgent, made.id, session.history[..n - 1], previous.promptCount);
      restored := true;
    }

    // ---- The transaction ----

    method RestoreBridges(plan: S.Plan) returns (completed: bool)
      modifies this, session
      ensures (View(), completed) == S.ReconnectIf(old(View()), plan)
      ensures switchingLocks == old(switchingLocks)
    {
      hide S.Reconnect;
      completed := true;
      if plan.hadBridges { completed := ReconnectCurrentAttachments(plan.leases); }
    }

    method Commit(plan: S.Plan) returns (made: S.Created)
      modifies this, session
      ensures (View(), made) == S.Commit(old(View()), plan)
      ensures switchingLocks == old(switchingLocks)
    {
      hide S.SwitchAgent, S.ReconnectIf, S.PatchRecord;
      if !IsSwitchTargetLive() { return S.NotCreated; }
      made := SwitchAgent(plan.toAgent, plan.canResume);
      if made.NotCreated? || !IsSwitchTargetLive() { return S.NotCreated; }
      var bridged := RestoreBridges(plan);
      if !bridged || !IsSwitchTargetLive() { return S.NotCreated; }
      var saved := PatchRecord(S.CommitPatch(View(), plan));
      if !saved || !IsSwitchTargetLive() { return S.NotCreated; }
      session.actionsSuspended := false;
    }

    method Rollback(plan: S.Plan, saved: S.Saved) returns (restored: bool)
      modifies this, session
      ensures (View(), restored) == S.Rollback(old(View()), plan, saved)
      ensures switchingLocks == old(switchingLocks)
    {
      hide S.RestoreAgent, S.ReconnectIf, S.PatchRecord;
      var _ := DisconnectSessionBridges();
      restored := RestoreAgentAfterFailedSwitch(plan.fromAgent);
      if !restored || !IsSwitchTargetLive() { return false; }
      var written := PatchRecord(S.RollbackPatch(View(), plan, saved));
      if !written || !IsSwitchTargetLive() { return false; }
      session.actionsSuspended := false;
      restored := RestoreBridges(plan);
    }

    method DestroySession()
      modifies this, session
      ensures View() == S.DestroySession(old(View()))
      ensures switchingLocks == old(switchingLocks)
    {
      hide S.Pause;
      if IsSwitchTargetLive() { Emit(S.Gone); }
      session.terminating, session.actionsSuspended := true, true;
      var _ := Await();
    }

    method GiveUp() returns (outcome: S.Outcome)
      modifies this, session
      ensures (View(), outcome) == S.GiveUp(old(View()))
      ensures switchingLocks == old(switchingLocks)
    {
      hide S.DestroySession, S.PatchRecord;
      if !IsSwitchTargetLive() { return S.Terminated; }
      if S.IsTerminal(session.status) { return S.FailRejected; }
      session.status := S.Error;
      var _ := DisconnectSessionBridges();
      DestroySession();
      var _ := PatchRecord(S.FailurePatch(View()));
      outcome := S.RollbackFailed;
    }

    method Recover(plan: S.Plan, saved: S.Saved) returns (outcome: S.Outcome)
      modifies this, session
      ensures (View(), outcome) == S.Recover(old(View()), plan, saved)
      ensures switchingLocks == old(switchingLocks)
    {
      hide S.Rollback, S.GiveUp;
      if !IsSwitchTargetLive() { return S.Terminated; }
      Emit(S.Failed);
      var restored := Rollback(plan, saved);
      if restored { return S.RolledBack; }
      outcome := GiveUp();
    }

    method DoSwitch(toAgent: string) returns (outcome: S.Outcome)
      modifies this, session
      ensures (View(), outcome) == S.DoSwitch(old(View()), toAgent)
      ensures switchingLocks == old(switchingLocks)
    {
      hide S.Pause, S.Proceed;
      if !registered { return S.NotFound; }
      if toAgent !in installed { return S.NotInstalled; }
      if toAgent == session.agentName { return S.AlreadyUsing; }
      var allowed := true;
      if hasMiddleware {
        var tick := Await();
        allowed := tick.ok;
      }
      if !IsSwitchTargetLive() { return S.Terminated; }
      if !allowed { return S.Vetoed; }
      outcome := Proceed(toAgent);
    }

    method Proceed(toAgent: string) returns (outcome: S.Outcome)
      modifies this, session
      ensures (View(), outcome) == S.Proceed(old(View()), toAgent)
      ensures switchingLocks == old(switchingLocks)
    {
      hide S.CleanAll, S.Execute, S.AbandonCleanup, S.CaptureLeases, S.HasEntry;
      var fromAgent := session.agentName;
      var canResume := S.HasEntry(session.history, toAgent) && toAgent in resumable;
      Emit(S.Starting);
      var captured := CaptureAttachmentLeases();
      if captured.None? { return S.Incoherent; }
      var leases := captured.value;
      Emit(S.Captured(leases, bridges != {}));
      var count := DisconnectSessionBridges();
      var plan := S.Plan(toAgent, fromAgent, canResume, leases, count > 0);
      session.actionsSuspended := true;
      var cleanupErrors := CleanAttachments(leases);
      if !IsSwitchTargetLive() { return S.Terminated; }
      if cleanupErrors > 0 {
        outcome := AbandonCleanup(plan);
      } else {
        outcome := Execute(plan);
      }
    }

    method AbandonCleanup(plan: S.Plan) returns (outcome: S.Outcome)
      modifies this, session
      ensures (View(), outcome) == S.AbandonCleanup(old(View()), plan)
      ensures switchingLocks == old(switchingLocks)
    {
      hide S.ReconnectIf;
      session.actionsSuspended := false;
      var _ := RestoreBridges(plan);
      Emit(S.Failed);
      outcome := S.CleanupFailed;
    }

    method Execute(plan: S.Plan) returns (outcome: S.Outcome)
      modifies this, session
      ensures (View(), outcome) == S.Execute(old(View()), plan)
      ensures switchingLocks == old(switchingLocks)
    {
      hide S.Commit, S.Recover;
      var saved := S.SaveIdentity(View());
      var made := Commit(plan);
      if made.NotCreated? {
        outcome := Recover(plan, saved);
      } else {
        Emit(S.Succeeded(made.resumed));
        outcome := S.Switched(made.resumed);
      }
    }

    /**
     * Switch to another agent, one attempt at a time.  The last three clauses restate for the
     * objects themselves what the theorems say about the world.
     */
    method Switch(toAgent: string) returns (outcome: S.Outcome)
      requires T.Coherent(View())
      modifies this, session
      ensures (View(), outcome) == S.Switch(old(View()), toAgent)
      ensures switchingLocks == old(switchingLocks)
      ensures outcome.InProgress? <==> sessionId in old(switchingLocks)
      ensures outcome.Switched? && record.Some? ==> record.value.agentName == session.agentName == toAgent
      ensures outcome.RolledBack? && record.Some? ==>
        record.value.agentName == session.agentName == old(session.agentName)
    {
      hide S.DoSwitch;
      T.OneSwitchAtATime(View(), toAgent);
      ghost var start := View();
      if sessionId in switchingLocks { return S.InProgress; }
      T.ThreeOutcomes(View(), toAgent);
      switchingLocks := switchingLocks + {sessionId};
      log := if IsSwitchTargetLive() then [] else [S.Gone];
      outcome := DoSwitch(toAgent);
      switchingLocks := switchingLocks - {sessionId};
    }
  }

  function Prepend(captured: seq<Lease>, rest: Option<seq<Lease>>): Option<seq<Lease>> {
    if rest.None? then None else Some(captured + rest.value)
  }

  lemma PrependNone(rest: Option<seq<Lease>>)
    ensures Prepend([], rest) == rest
  {
    if rest.Some? { assert [] + rest.value == rest.value; }
  }

  lemma PrependOne(captured: seq<Lease>, lease: Lease, rest: Option<seq<Lease>>)
    ensures Prepend(captured + [lease], rest) == Prepend(captured, Prepend([lease], rest))
  {
    if rest.Some? { assert (captured + [lease]) + rest.value == captured + ([lease] + rest.value); }
  }
}
