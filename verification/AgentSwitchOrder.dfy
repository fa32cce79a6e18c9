/**
 * In which order a switch cleans, bridges and records, and when it shows the agent's actions.
 */
module AgentSwitchOrder {
  import opened Wrappers
  import opened AgentSwitch
  import opened AgentSwitchInvariant
  import opened AgentSwitchSteps
  import opened AgentSwitchTheorems

  // ---- What other code can log ----

  predicate Foreign(e: Event) {
    e.Gone? || e.Rebound? || e.Refused? || e.Overlapped?
  }

  /** Between the two only other code was heard of. */
  predicate OnlyForeign(before: seq<Event>, after: seq<Event>) {
    before <= after && forall i :: |before| <= i < |after| ==> Foreign(after[i])
  }

  lemma {:induction false} ActAllLogs(w: World, actions: seq<Action>)
    ensures OnlyForeign(w.log, ActAll(w, actions).log)
    decreases |actions|
  {
    if actions != [] {
      ActLogs(w, actions[0]);
      hide Act, Foreign;
      ActAllLogs(Act(w, actions[0]), actions[1..]);
    }
  }

  lemma ActLogs(w: World, a: Action)
    ensures OnlyForeign(w.log, Act(w, a).log)
  {
    hide AttachBinding, DetachBinding;
  }

  lemma PauseLogs(w: World)
    ensures OnlyForeign(w.log, Pause(w).log)
  {
    ActAllLogs(w.(future := if w.future == [] then [] else w.future[1..]), Next(w).actions);
  }

  lemma ForeignTwice(a: seq<Event>, b: seq<Event>, c: seq<Event>)
    requires OnlyForeign(a, b) && OnlyForeign(b, c)
    ensures OnlyForeign(a, c)
  {
  }

  // ---- Waiting shows nothing ----

  /** The session's life only ends, and while it lasts its actions are as hidden as they were. */
  predicate Steady(w: World, w': World) {
    && (w.session.actionsSuspended ==> w'.session.actionsSuspended)
    && (Live(w') ==> Live(w) && w'.session.actionsSuspended == w.session.actionsSuspended)
  }

  /** Only other code was heard of. */
  predicate Silent(w: World, w': World) {
    OnlyForeign(w.log, w'.log) && Steady(w, w')
  }

  lemma {:induction false} ActAllIsSteady(w: World, actions: seq<Action>)
    ensures Steady(w, ActAll(w, actions))
    decreases |actions|
  {
    if actions != [] {
      ActIsSteady(w, actions[0]);
      hide Act;
      ActAllIsSteady(Act(w, actions[0]), actions[1..]);
    }
  }

  lemma ActIsSteady(w: World, a: Action)
    ensures Steady(w, Act(w, a))
  {
    hide AttachBinding, DetachBinding;
  }

  lemma PauseIsSilent(w: World)
    ensures Silent(w, Pause(w))
  {
    PauseLogs(w);
    var w0 := w.(future := if w.future == [] then [] else w.future[1..]);
    ActAllIsSteady(w0, Next(w).actions);
  }

  lemma SilentTwice(a: World, b: World, c: World)
    requires Silent(a, b) && Silent(b, c)
    ensures Silent(a, c)
  {
    ForeignTwice(a.log, b.log, c.log);
    hide OnlyForeign;
  }

  lemma DestroyIsSilent(w: World)
    ensures Silent(w, DestroyAgent(w).0)
  {
    PauseIsSilent(w);
    hide Pause;
  }

  lemma SpawnIsSilent(w: World, resumed: bool)
    ensures Silent(w, Spawn(w, resumed).0)
    ensures Spawn(w, resumed).1.Created? ==> !Spawn(w, resumed).0.session.terminating
  {
    PauseIsSilent(w);
    hide Pause;
  }

  lemma SpawnFreshIsSilent(w: World)
    ensures Silent(w, SpawnFresh(w).0)
  {
    assert OnlyForeign(w.log, w.log) && Silent(w, w);
    hide Pause, Spawn, Silent;
    PauseIsSilent(w);
    PauseIsSilent(Pause(w));
    SilentTwice(w, Pause(w), Pause(Pause(w)));
    var w1 := BuildContext(w).0;
    SpawnIsSilent(w1, false);
    SilentTwice(w, w1, Spawn(w1, false).0);
  }

  lemma CreateIsSilent(w: World, canResume: bool)
    ensures Silent(w, CreateReplacement(w, canResume).0) && Silent(w, RecreatePrevious(w).0)
  {
    hide Spawn, SpawnFresh, Silent;
    SpawnIsSilent(w, true);
    var w1 := Spawn(w, true).0;
    SpawnFreshIsSilent(w);
    SpawnFreshIsSilent(w1);
    SilentTwice(w, w1, SpawnFresh(w1).0);
    SpawnIsSilent(w1, false);
    SilentTwice(w, w1, Spawn(w1, false).0);
  }

  lemma NothingNew(log: seq<Event>)
    ensures OnlyForeign(log, log)
  {
  }

  lemma SwitchAgentIsSilent(w: World, toAgent: string, canResume: bool)
    requires w.session.actionsSuspended
    ensures Silent(w, SwitchAgent(w, toAgent, canResume).0)
  {
    NothingNew(w.log);
    var w0 := PushHistory(Suspend(w));
    assert w0.log == w.log && w0.session.actionsSuspended && Live(w0) == Live(w);
    hide DestroyAgent, CreateReplacement, OnlyForeign, PushHistory;
    DestroyIsSilent(w0);
    var w1 := DestroyAgent(w0).0;
    CreateIsSilent(w1, canResume);
    SilentTwice(w0, w1, CreateReplacement(w1, canResume).0);
  }

  lemma RestoreAgentIsSilent(w: World, fromAgent: string)
    ensures Silent(w, RestoreAgent(w, fromAgent).0)
  {
    hide DestroyAgent, RecreatePrevious, Foreign;
    DestroyIsSilent(w);
    var w1 := DestroyAgent(w).0;
    CreateIsSilent(w1, false);
    SilentTwice(w, w1, RecreatePrevious(w1).0);
  }

  lemma PatchIsSilent(w: World, p: Patch)
    ensures Silent(w, PatchRecord(w, p).0)
  {
    hide Pause, Merge, Foreign;
    PauseIsSilent(w);
    var w1 := Pause(w);
    if Live(w1) && w1.record.Some? {
      var w2 := w1.(record := if Next(w1).ok || Next(w1).wrote then Some(Merge(w1.record.value, p)) else w1.record);
      PauseIsSilent(w2);
      SilentTwice(w, w2, Pause(w2));
    }
  }

  lemma GiveUpIsSilent(w: World)
    ensures Silent(w, GiveUp(w).0)
  {
    assert OnlyForeign(w.log, w.log);
    if Live(w) && CanFail(w.session) {
      var w0 := Disconnect(Fail(w));
      var ended := NoteGone(w0).(session := w0.session.(terminating := true, actionsSuspended := true));
      assert Silent(w, ended);
      hide Pause, PatchRecord, Silent;
      PauseIsSilent(ended);
      var w1 := DestroySession(w0);
      PatchIsSilent(w1, FailurePatch(w1));
      SilentTwice(w, ended, w1);
      SilentTwice(w, w1, PatchRecord(w1, FailurePatch(w1)).0);
    }
  }

  // ---- Bridges and cleanup calls ----

  /** From the one log to the other cleanup sees hidden actions, and so does a connection, or it does not. */
  predicate Shows(before: seq<Event>, after: seq<Event>, hidden: bool) {
    && before <= after
    && forall i :: |before| <= i < |after| ==>
         && !after[i].Failed?
         && (after[i].Cleaned? ==> after[i].hidden)
         && (after[i].Connected? ==> after[i].hidden == hidden)
  }

  lemma ShowsTwice(a: seq<Event>, b: seq<Event>, c: seq<Event>, hidden: bool)
    requires Shows(a, b, hidden) && (Shows(b, c, hidden) || OnlyForeign(b, c))
    ensures Shows(a, c, hidden)
  {
  }

  lemma ForeignShows(a: seq<Event>, b: seq<Event>, hidden: bool)
    requires OnlyForeign(a, b)
    ensures Shows(a, b, hidden)
  {
  }

  lemma {:induction false} ReconnectShows(w: World, leases: seq<Lease>, hidden: bool)
    requires Live(w) ==> w.session.actionsSuspended == hidden
    ensures Shows(w.log, Reconnect(w, leases).0.log, hidden) && Steady(w, Reconnect(w, leases).0)
    decreases |leases|
  {
    assert Shows(w.log, w.log, hidden);
    hide Current, Pause, Shows;
    if leases != [] {
      var l, rest := leases[0], leases[1..];
      if !Current(w.session.bindings, l) {
        ReconnectShows(w, rest, hidden);
      } else if l.adapterId in w.adapters && Live(w) {
        var w1 := Connect(w, l.adapterId);
        ConnectShows(w, l.adapterId, hidden);
        ReconnectShows(w1, rest, hidden);
        ShowsTwice(w.log, w1.log, Reconnect(w1, rest).0.log, hidden);
      }
    }
  }

  lemma ConnectShows(w: World, adapterId: string, hidden: bool)
    requires w.session.actionsSuspended == hidden
    ensures Shows(w.log, Connect(w, adapterId).log, hidden) && Steady(w, Connect(w, adapterId))
  {
    var noted := Note(w, Connected(adapterId, w.session.actionsSuspended)).(bridges := w.bridges + {adapterId});
    assert Shows(w.log, noted.log, hidden);
    PauseIsSilent(noted);
    hide Pause, Shows, OnlyForeign;
    ShowsTwice(w.log, noted.log, Pause(noted).log, hidden);
  }

  lemma CallShows(w: World, adapterId: string, call: CleanupCall, hidden: bool)
    requires w.session.actionsSuspended
    ensures var w' := Call(w, adapterId, call).0;
      Shows(w.log, w'.log, hidden) && Steady(w, w')
  {
    var noted := Note(w, Cleaned(adapterId, call, w.session.actionsSuspended));
    assert Shows(w.log, noted.log, hidden);
    PauseIsSilent(noted);
    hide Pause, Shows, OnlyForeign;
    ShowsTwice(w.log, noted.log, Pause(noted).log, hidden);
  }

  lemma CleanAdapterShows(w: World, l: Lease, hidden: bool)
    requires w.session.actionsSuspended
    ensures var w' := CleanAdapter(w, l).0;
      Shows(w.log, w'.log, hidden) && Steady(w, w')
  {
    assert Shows(w.log, w.log, hidden);
    hide Call, Current, Shows;
    if Current(w.session.bindings, l) && l.adapterId in w.adapters {
      var adapter := w.adapters[l.adapterId];
      var w1 := w;
      if RetiringCall(adapter).Some? {
        CallShows(w, l.adapterId, RetiringCall(adapter).value, hidden);
        w1 := Call(w, l.adapterId, RetiringCall(adapter).value).0;
      }
      if adapter.cleansSessionState {
        CallShows(w1, l.adapterId, CleanupSessionState, hidden);
        ShowsTwice(w.log, w1.log, Call(w1, l.adapterId, CleanupSessionState).0.log, hidden);
      }
    }
  }

  lemma {:induction false} CleanAllShows(w: World, leases: seq<Lease>, hidden: bool)
    requires w.session.actionsSuspended
    ensures var w' := CleanAll(w, leases).0;
      Shows(w.log, w'.log, hidden) && Steady(w, w')
    decreases |leases|
  {
    assert Shows(w.log, w.log, hidden);
    hide CleanAdapter, Shows;
    if leases != [] {
      var w1 := CleanAdapter(w, leases[0]).0;
      CleanAdapterShows(w, leases[0], hidden);
      CleanAllShows(w1, leases[1..], hidden);
      ShowsTwice(w.log, w1.log, CleanAll(w1, leases[1..]).0.log, hidden);
    }
  }

  // ---- Commit and rollback ----

  /** Until it is complete a commit shows nothing: bridges come back with the actions still hidden. */
  lemma CommitShows(w: World, plan: Plan)
    requires w.session.actionsSuspended
    ensures var (w', made) := Commit(w, plan);
      && Shows(w.log, w'.log, true)
      && (made.NotCreated? ==> Steady(w, w'))
  {
    assert Shows(w.log, w.log, true);
    hide SwitchAgent, Reconnect, PatchRecord, Shows, OnlyForeign;
    if Live(w) {
      SwitchAgentIsSilent(w, plan.toAgent, plan.canResume);
      var (w1, made) := SwitchAgent(w, plan.toAgent, plan.canResume);
      ForeignShows(w.log, w1.log, true);
      if made.Created? && Live(w1) {
        ReconnectShows(w1, plan.leases, true);
        var (w2, bridged) := ReconnectIf(w1, plan);
        ShowsTwice(w.log, w1.log, Reconnect(w1, plan.leases).0.log, true);
        assert Shows(w.log, w2.log, true);
        if bridged && Live(w2) {
          PatchIsSilent(w2, CommitPatch(w2, plan));
          ShowsTwice(w.log, w2.log, PatchRecord(w2, CommitPatch(w2, plan)).0.log, true);
        }
      }
    }
  }

  /** A rollback shows the old agent's actions before the old bridges come back. */
  lemma RollbackShows(w: World, plan: Plan, saved: Saved)
    ensures Shows(w.log, Rollback(w, plan, saved).0.log, false)
  {
    assert Shows(w.log, w.log, false);
    hide RestoreAgent, Reconnect, PatchRecord, Shows, OnlyForeign;
    var w0 := Disconnect(w);
    RestoreAgentIsSilent(w0, plan.fromAgent);
    var (w1, restored) := RestoreAgent(w0, plan.fromAgent);
    ForeignShows(w.log, w1.log, false);
    if restored && Live(w1) {
      PatchIsSilent(w1, RollbackPatch(w1, plan, saved));
      var (w2, written) := PatchRecord(w1, RollbackPatch(w1, plan, saved));
      ShowsTwice(w.log, w1.log, w2.log, false);
      if written && Live(w2) {
        ReconnectShows(Resume(w2), plan.leases, false);
        ShowsTwice(w.log, w2.log, Reconnect(Resume(w2), plan.leases).0.log, false);
      }
    }
  }

  /**
   * Runtime and record are rolled back before any old bridge becomes visible: once a rollback has connected one,
   * both name the old agent with its history and prompt count, even if the rollback fails after that.
   */
  lemma RollbackRestoresBeforeBridging(w: World, plan: Plan, saved: Saved, mark: nat, entry: HistoryEntry)
    requires Sound(w, plan.leases, mark)
    requires w.session.runtime.firstAgent == saved.firstAgent
    requires w.session.runtime.history == saved.history + [entry]
    requires entry.agentName == plan.fromAgent && entry.promptCount == saved.promptCount
    ensures var w' := Rollback(w, plan, saved).0;
      (exists i :: |w.log| <= i < |w'.log| && w'.log[i].Connected?) ==>
        && w'.session.runtime.running
        && RunsOn(w', plan.fromAgent, saved.firstAgent, saved.history) && RecordCounts(w', saved.promptCount)
  {
    var w0 := Disconnect(w);
    assert Sound(w0, plan.leases, mark) by { hide LogSound, ReboundSince, HasGone, Current, Generation; }
    hide Sound, AllBridged, RestoreAgent, ReconnectIf, PatchRecord, Foreign;
    RestoreAgentKeeps(w0, plan.fromAgent, plan.leases, mark, saved.history, entry);
    RestoreAgentIsSilent(w0, plan.fromAgent);
    var (w1, restored) := RestoreAgent(w0, plan.fromAgent);
    if restored && Live(w1) {
      NothingToBridge(w1);
      PatchKeeps(w1, RollbackPatch(w1, plan, saved), plan.leases, mark, []);
      PatchIsSilent(w1, RollbackPatch(w1, plan, saved));
      var (w2, written) := PatchRecord(w1, RollbackPatch(w1, plan, saved));
      ForeignTwice(w.log, w1.log, w2.log);
      if written && Live(w2) {
        ResumeKeeps(w2, plan.leases, mark, []);
        ReconnectIfKeeps(Resume(w2), plan, mark);
      } else {
        NoConnection(w.log, w2.log);
      }
    } else {
      NoConnection(w.log, w1.log);
    }
  }

  lemma NoConnection(a: seq<Event>, b: seq<Event>)
    requires OnlyForeign(a, b)
    ensures !exists i :: |a| <= i < |b| && b[i].Connected?
  {
  }

  // ---- The whole switch ----

  /** Cleanup sees hidden actions; a connection does so exactly if nothing has failed yet. */
  predicate Visible(log: seq<Event>, abandoned: bool) {
    forall i :: 0 <= i < |log| ==>
      && (log[i].Cleaned? ==> log[i].hidden)
      && (log[i].Connected? ==>
            (log[i].hidden <==> !abandoned && forall j :: 0 <= j < i ==> !log[j].Failed?))
  }

  lemma CommitIsVisible(start: seq<Event>, log: seq<Event>, e: Event)
    requires Shows([], start, true) && Shows(start, log, true) && (e.Succeeded? || e.Failed?)
    ensures Visible(log, false) && Visible(log + [e], false)
  {
  }

  lemma RollbackIsVisible(start: seq<Event>, failed: seq<Event>, log: seq<Event>, after: seq<Event>)
    requires Shows([], start, true) && Shows(start, failed, true)
    requires Shows(failed + [Failed], log, false) && OnlyForeign(log, after)
    ensures Visible(log, false) && Visible(after, false)
  {
    assert (failed + [Failed])[|failed|].Failed? && log[|failed|].Failed? && after[|failed|].Failed?;
    assert forall j :: 0 <= j < |failed| ==> log[j] == failed[j] && after[j] == failed[j];
  }

  lemma ExecuteShows(w: World, plan: Plan)
    requires w.session.actionsSuspended && Shows([], w.log, true)
    ensures Visible(Execute(w, plan).0.log, false)
  {
    CommitShows(w, plan);
    var (w1, made) := Commit(w, plan);
    hide Commit, Rollback, GiveUp, Shows, Visible, OnlyForeign;
    CommitIsVisible(w.log, w1.log, Failed);
    if made.Created? {
      CommitIsVisible(w.log, w1.log, Succeeded(made.resumed));
    } else if Live(w1) {
      var saved := SaveIdentity(w);
      RollbackShows(Note(w1, Failed), plan, saved);
      var w2 := Rollback(Note(w1, Failed), plan, saved).0;
      GiveUpIsSilent(w2);
      RollbackIsVisible(w.log, w1.log, w2.log, GiveUp(w2).0.log);
    }
  }

  lemma AbandonShows(w: World, plan: Plan)
    requires Shows([], w.log, false)
    ensures Visible(AbandonCleanup(w, plan).0.log, true)
  {
    assert Shows(w.log, w.log, false);
    hide Reconnect;
    ReconnectShows(Resume(w), plan.leases, false);
    ShowsTwice([], w.log, ReconnectIf(Resume(w), plan).0.log, false);
  }

  lemma ProceedShows(w: World, toAgent: string)
    requires OnlyForeign([], w.log)
    ensures Visible(Proceed(w, toAgent).0.log, Proceed(w, toAgent).1.CleanupFailed?)
  {
    var leases := if CaptureLeases(w.session.bindings).Some? then CaptureLeases(w.session.bindings).value else [];
    var started := Note(w, Starting);
    var w0 := Suspend(Disconnect(Note(started, Captured(leases, w.bridges != {}))));
    assert Shows([], started.log, true) && Visible(started.log, false);
    assert Shows([], w0.log, true) && Shows([], w0.log, false);
    CleanAllShows(w0, leases, true);
    CleanAllShows(w0, leases, false);
    var (w1, errors) := CleanAll(w0, leases);
    hide CaptureLeases, CleanAll, Execute, AbandonCleanup, HasEntry, Shows, Visible;
    ShowsTwice([], w0.log, w1.log, true);
    ShowsTwice([], w0.log, w1.log, false);
    ShownIsVisible(w1.log);
    var r := w.session.runtime;
    var plan := Plan(toAgent, r.agentName, HasEntry(r.history, toAgent) && toAgent in w.resumable, leases, w.bridges != {});
    ExecuteShows(w1, plan);
    AbandonShows(w1, plan);
    ExecuteOutcome(w1, plan);
  }

  lemma ShownIsVisible(log: seq<Event>)
    requires Shows([], log, true)
    ensures Visible(log, false)
  {
  }

  lemma ExecuteOutcome(w: World, plan: Plan)
    ensures !Execute(w, plan).1.CleanupFailed?
  {
    hide Commit, Rollback;
  }

  /**
   * From the start of its cleanup on a switch keeps the agent's actions hidden, whatever runs beside it, while
   * adapters are cleaned and while the new agent's bridges connect; when the old bridges connect again, after a
   * failure, the actions are shown.
   */
  lemma ActionsStayHidden(w: World, toAgent: string)
    requires !w.switching
    ensures var (w', outcome) := Switch(w, toAgent);
      forall i :: 0 <= i < |w'.log| ==>
        && (w'.log[i].Cleaned? ==> w'.log[i].hidden)
        && (w'.log[i].Connected? ==>
              (w'.log[i].hidden <==>
                 !outcome.CleanupFailed? && forall j :: 0 <= j < i ==> !w'.log[j].Failed?))
  {
    var w0 := Begin(w);
    PauseLogs(w0);
    assert OnlyForeign([], w0.log);
    var w1 := if w0.hasMiddleware then Pause(w0) else w0;
    ForeignTwice([], w0.log, Pause(w0).log);
    ForeignIsVisible(w0.log);
    ForeignIsVisible(w1.log);
    ProceedShows(w1, toAgent);
    hide Pause, Proceed, OnlyForeign;
    assert Visible(Switch(w, toAgent).0.log, Switch(w, toAgent).1.CleanupFailed?) by { hide Visible; }
    hide Switch;
  }

  lemma ForeignIsVisible(log: seq<Event>)
    requires OnlyForeign([], log)
    ensures Visible(log, false)
  {
  }
}
