/**
 * How a switch depends on what runs beside it: which schedules end the session, and
 * which adapters a rollback leaves bridged.
 */
module AgentSwitchSchedules {
  import opened Wrappers
  import opened AgentSwitch
  import opened AgentSwitchInvariant
  import opened AgentSwitchSteps
  import opened AgentSwitchTheorems
  import opened AgentSwitchProgress

  // ---- Schedules that end the session ----

  predicate EndsSession(a: Action) {
    a.Terminate? || a.Replace?
  }

  predicate Ending(t: Tick) {
    exists i :: 0 <= i < |t.actions| && EndsSession(t.actions[i])
  }

  /** One of the next n pauses ends the session. */
  predicate EndsWithin(w: World, n: nat) {
    exists k :: 0 <= k < n && k < |w.future| && Ending(w.future[k])
  }

  lemma ActEnds(w: World, a: Action)
    ensures Live(Act(w, a)) <==> Live(w) && !EndsSession(a)
    ensures Act(w, a).future == w.future
  {
    hide AttachBinding, DetachBinding;
  }

  predicate Harmless(actions: seq<Action>) {
    forall i :: 0 <= i < |actions| ==> !EndsSession(actions[i])
  }

  lemma HarmlessRest(actions: seq<Action>)
    requires actions != []
    ensures Harmless(actions) <==> !EndsSession(actions[0]) && Harmless(actions[1..])
  {
    hide EndsSession;
    if Harmless(actions[1..]) && !EndsSession(actions[0]) {
      forall i | 0 <= i < |actions| ensures !EndsSession(actions[i]) {
        if i > 0 { assert actions[i] == actions[1..][i - 1]; }
      }
    }
  }

  lemma {:induction false} ActAllEnds(w: World, actions: seq<Action>)
    ensures Live(ActAll(w, actions)) <==> Live(w) && Harmless(actions)
    ensures ActAll(w, actions).future == w.future
    decreases |actions|
  {
    if actions != [] {
      hide Act, EndsSession, Harmless;
      ActEnds(w, actions[0]);
      HarmlessRest(actions);
      ActAllEnds(Act(w, actions[0]), actions[1..]);
    }
  }

  /** A pause ends a live session exactly when its tick does. */
  lemma PauseEnds(w: World)
    ensures Live(Pause(w)) <==> Live(w) && !Ending(Next(w))
    ensures Pause(w).future == if w.future == [] then [] else w.future[1..]
  {
    ActAllEnds(w.(future := if w.future == [] then [] else w.future[1..]), Next(w).actions);
  }

  /** How many bridges a reconnection connects. */
  function Connections(w: World, leases: seq<Lease>): (n: nat)
    ensures n <= |leases|
    decreases |leases|
  {
    if leases == [] then 0
    else if !Current(w.session.bindings, leases[0]) then Connections(w, leases[1..])
    else if leases[0].adapterId !in w.adapters || !Live(w) then 0
    else 1 + Connections(Connect(w, leases[0].adapterId), leases[1..])
  }

  /** A reconnection leaves the session live exactly when none of the ticks of its connections ends it. */
  lemma {:induction false} ReconnectEnds(w: World, leases: seq<Lease>)
    requires Live(w)
    ensures Live(Reconnect(w, leases).0) <==> !EndsWithin(w, Connections(w, leases))
    decreases |leases|
  {
    hide Current, Pause, Ending;
    if leases != [] {
      var l, rest := leases[0], leases[1..];
      if !Current(w.session.bindings, l) {
        ReconnectEnds(w, rest);
      } else if l.adapterId in w.adapters {
        var noted := Note(w, Connected(l.adapterId, w.session.actionsSuspended)).(bridges := w.bridges + {l.adapterId});
        PauseEnds(noted);
        QuietNeverEnds();
        var w1 := Connect(w, l.adapterId);
        EndsWithinOneMore(w, w1, Connections(w1, rest));
        if Live(w1) { ReconnectEnds(w1, rest); } else { GoneStaysGone(w1, rest); }
      }
    }
  }

  lemma QuietNeverEnds()
    ensures !Ending(QUIET)
  {
  }

  lemma EndsWithinOneMore(w: World, w1: World, n: nat)
    requires w1.future == if w.future == [] then [] else w.future[1..]
    ensures EndsWithin(w, n + 1) <==> (w.future != [] && Ending(w.future[0])) || EndsWithin(w1, n)
  {
    hide Ending;
    if k :| 0 <= k < n + 1 && k < |w.future| && Ending(w.future[k]) {
      if k > 0 { assert w1.future[k - 1] == w.future[k]; }
    }
    if k :| 0 <= k < n && k < |w1.future| && Ending(w1.future[k]) {
      assert w.future[k + 1] == w1.future[k];
    }
  }

  lemma {:induction false} GoneStaysGone(w: World, leases: seq<Lease>)
    requires !Live(w)
    ensures !Live(Reconnect(w, leases).0) && Connections(w, leases) == 0
    decreases |leases|
  {
    if leases != [] { GoneStaysGone(w, leases[1..]); }
  }

  /**
   * A failed cleanup is announced after the end exactly when the session had bridges and one of the
   * ticks in which they are connected again terminates or replaces it.
   */
  lemma LateFailureExactly(w: World, plan: Plan, mark: nat)
    requires Sound(w, plan.leases, mark) && Live(w)
    ensures FailedAfterGone(AbandonCleanup(w, plan).0.log) <==>
      plan.hadBridges && EndsWithin(w, Connections(Resume(w), plan.leases))
  {
    AbandonKeeps(w, plan, mark);
    var w1 := ReconnectIf(Resume(w), plan).0;
    assert Live(w1) <==> !(plan.hadBridges && EndsWithin(w, Connections(Resume(w), plan.leases))) by {
      hide Sound, Reconnect, Connections;
      ReconnectEnds(Resume(w), plan.leases);
    }
    hide Sound, ReconnectIf, EndsWithin, StopsWhenGone, FailedAfterGone, HasGone;
    FailedLast(AbandonCleanup(w, plan).0.log);
  }

  // ---- Schedules that leave the session alone ----

  /** No pause from here on ends the session. */
  predicate Calm(w: World) {
    forall k :: 0 <= k < |w.future| ==> !Ending(w.future[k])
  }

  lemma CalmPause(w: World)
    requires Calm(w)
    ensures Calm(Pause(w)) && (Live(w) ==> Live(Pause(w)))
  {
    PauseEnds(w);
    QuietNeverEnds();
    hide Pause, Ending;
  }

  lemma CalmCleanAdapter(w: World, l: Lease)
    requires Calm(w)
    ensures Calm(CleanAdapter(w, l).0)
  {
    hide Pause, Current, Calm;
    if Current(w.session.bindings, l) && l.adapterId in w.adapters {
      var adapter := w.adapters[l.adapterId];
      var w1 := w;
      if RetiringCall(adapter).Some? {
        CalmCall(w, l.adapterId, RetiringCall(adapter).value);
        w1 := Call(w, l.adapterId, RetiringCall(adapter).value).0;
      }
      if adapter.cleansSessionState { CalmCall(w1, l.adapterId, CleanupSessionState); }
    }
  }

  lemma CalmCall(w: World, adapterId: string, call: CleanupCall)
    requires Calm(w)
    ensures Calm(Call(w, adapterId, call).0)
  {
    CalmPause(Note(w, Cleaned(adapterId, call, w.session.actionsSuspended)));
    hide Pause;
  }

  lemma {:induction false} CalmCleanAll(w: World, leases: seq<Lease>)
    requires Calm(w)
    ensures Calm(CleanAll(w, leases).0)
    decreases |leases|
  {
    hide CleanAdapter, Calm;
    if leases != [] {
      CalmCleanAdapter(w, leases[0]);
      CalmCleanAll(CleanAdapter(w, leases[0]).0, leases[1..]);
    }
  }

  lemma CalmAbandon(w: World, plan: Plan)
    requires Calm(w) && Live(w)
    ensures Live(AbandonCleanup(w, plan).0)
  {
    hide Reconnect, Connections;
    ReconnectEnds(Resume(w), plan.leases);
  }

  lemma CalmProceed(w: World, toAgent: string)
    requires Calm(w)
    ensures Proceed(w, toAgent).1.CleanupFailed? ==> Live(Proceed(w, toAgent).0)
  {
    hide CaptureLeases, CleanAll, Execute, AbandonCleanup, HasEntry, Calm;
    match CaptureLeases(w.session.bindings) {
      case None =>
      case Some(leases) =>
        var w0 := Suspend(Disconnect(Note(Note(w, Starting), Captured(leases, w.bridges != {}))));
        CalmSame(w, w0);
        CalmCleanAll(w0, leases);
        var w1 := CleanAll(w0, leases).0;
        var r := w.session.runtime;
        var plan := Plan(toAgent, r.agentName, HasEntry(r.history, toAgent) && toAgent in w.resumable, leases,
                         w.bridges != {});
        if Live(w1) { CalmAbandon(w1, plan); }
        ExecuteIsNoCleanupFailure(w1, plan);
    }
  }

  lemma CalmSame(w: World, w': World)
    requires Calm(w) && w'.future == w.future
    ensures Calm(w')
  {
  }

  lemma ExecuteIsNoCleanupFailure(w: World, plan: Plan)
    ensures !Execute(w, plan).1.CleanupFailed?
  {
    hide Commit, Rollback;
  }

  /** A switch during which nothing terminates or replaces the session announces nothing after the end. */
  lemma CalmSwitchAnnouncesNothingLate(w: World, toAgent: string)
    requires Coherent(w) && !w.switching && Calm(w)
    ensures !FailedAfterGone(Switch(w, toAgent).0.log)
  {
    NothingAfterTheEnd(w, toAgent);
    var w0 := Begin(w);
    CalmSame(w, w0);
    CalmPause(w0);
    CalmProceed(if w0.hasMiddleware then Pause(w0) else w0, toAgent);
    hide Proceed, Pause, FailedAfterGone, BridgesStop, HasGone, Calm;
  }

  // ---- Bridges after a rollback ----

  /**
   * Since position n of the log: an attached adapter that was bound anew is bridged, and a bridged one was
   * bound anew or, while the old bridges are being restored, has a current lease.
   */
  predicate Ledger(w: World, n: nat, leases: seq<Lease>, restoring: bool, a: string) {
    n <= |w.log| &&
    (Live(w) && a in w.session.bindings.attached ==>
      && (ReboundSince(w.log, n, a) ==> a in w.bridges)
      && (a in w.bridges ==>
            ReboundSince(w.log, n, a) || (restoring && HasCurrent(w.session.bindings, leases, a))))
  }

  lemma OtherBindingsKeepLeases(b: Bindings, id: string, thread: string, leases: seq<Lease>, a: string)
    requires a != id
    ensures HasCurrent(AttachBinding(b, id, thread), leases, a) <==> HasCurrent(b, leases, a)
    ensures HasCurrent(DetachBinding(b, id), leases, a) <==> HasCurrent(b, leases, a)
  {
    forall l | l in leases && l.adapterId == a
      ensures Current(AttachBinding(b, id, thread), l) <==> Current(b, l)
      ensures Current(DetachBinding(b, id), l) <==> Current(b, l)
    {
    }
    hide Current;
  }

  lemma AttachKeepsLedger(w: World, id: string, thread: string, n: nat, leases: seq<Lease>, restoring: bool, a: string)
    requires Ledger(w, n, leases, restoring, a)
    ensures Ledger(Act(w, Attach(id, thread)), n, leases, restoring, a)
  {
    ReboundGrows(w.log, n, Rebound(id), a);
    if id != a { OtherBindingsKeepLeases(w.session.bindings, id, thread, leases, a); }
    hide HasCurrent, ReboundSince, Generation;
  }

  lemma DetachKeepsLedger(w: World, id: string, n: nat, leases: seq<Lease>, restoring: bool, a: string)
    requires Ledger(w, n, leases, restoring, a)
    ensures Ledger(Act(w, Detach(id)), n, leases, restoring, a)
  {
    ReboundGrows(w.log, n, Rebound(id), a);
    if id != a { OtherBindingsKeepLeases(w.session.bindings, id, "", leases, a); }
    hide HasCurrent, ReboundSince, Generation;
  }

  lemma ActKeepsLedger(w: World, act: Action, n: nat, leases: seq<Lease>, restoring: bool, a: string)
    requires Ledger(w, n, leases, restoring, a)
    ensures Ledger(Act(w, act), n, leases, restoring, a)
  {
    match act {
      case Attach(id, thread) => AttachKeepsLedger(w, id, thread, n, leases, restoring, a);
      case Detach(id) => DetachKeepsLedger(w, id, n, leases, restoring, a);
      case SwitchAgain =>
        ReboundGrows(w.log, n, Refused, a);
        ReboundGrows(w.log, n, Overlapped, a);
        hide HasCurrent, ReboundSince;
      case _ =>
        ReboundGrows(w.log, n, Gone, a);
        hide HasCurrent, ReboundSince;
    }
  }

  lemma {:induction false} ActAllKeepsLedger(w: World, actions: seq<Action>, n: nat, leases: seq<Lease>,
                                             restoring: bool, a: string)
    requires Ledger(w, n, leases, restoring, a)
    ensures Ledger(ActAll(w, actions), n, leases, restoring, a)
    decreases |actions|
  {
    hide Ledger, Act;
    if actions != [] {
      ActKeepsLedger(w, actions[0], n, leases, restoring, a);
      ActAllKeepsLedger(Act(w, actions[0]), actions[1..], n, leases, restoring, a);
    }
  }

  lemma PauseKeepsLedger(w: World, n: nat, leases: seq<Lease>, restoring: bool, a: string)
    requires Ledger(w, n, leases, restoring, a)
    ensures Ledger(Pause(w), n, leases, restoring, a)
  {
    var w0 := w.(future := if w.future == [] then [] else w.future[1..]);
    assert Ledger(w0, n, leases, restoring, a);
    ActAllKeepsLedger(w0, Next(w).actions, n, leases, restoring, a);
    hide Ledger, ActAll;
  }

  /** The ledger speaks of bindings, bridges, log and life only. */
  lemma SameLedger(w: World, w': World, n: nat, leases: seq<Lease>, restoring: bool, a: string)
    requires Ledger(w, n, leases, restoring, a)
    requires w'.session.bindings == w.session.bindings && w'.bridges == w.bridges && w'.log == w.log
    requires Live(w') ==> Live(w)
    ensures Ledger(w', n, leases, restoring, a)
  {
  }

  lemma DestroyKeepsLedger(w: World, n: nat, leases: seq<Lease>, a: string)
    requires Ledger(w, n, leases, false, a)
    ensures Ledger(DestroyAgent(w).0, n, leases, false, a)
  {
    PauseKeepsLedger(w, n, leases, false, a);
    var w1 := Pause(w);
    SameLedger(w1, w1.(session := w1.session.(runtime := w1.session.runtime.(running := false))), n, leases, false, a);
    hide Pause, Ledger;
  }

  lemma RecreateKeepsLedger(w: World, n: nat, leases: seq<Lease>, a: string)
    requires Ledger(w, n, leases, false, a)
    ensures Ledger(RecreatePrevious(w).0, n, leases, false, a)
  {
    PauseKeepsLedger(w, n, leases, false, a);
    PauseKeepsLedger(Pause(w), n, leases, false, a);
    hide Pause, Ledger;
  }

  lemma RestoreKeepsLedger(w: World, fromAgent: string, n: nat, leases: seq<Lease>, a: string)
    requires Ledger(w, n, leases, false, a)
    ensures Ledger(RestoreAgent(w, fromAgent).0, n, leases, false, a)
  {
    hide Ledger, DestroyAgent, RecreatePrevious;
    DestroyKeepsLedger(w, n, leases, a);
    var w1 := DestroyAgent(w).0;
    RecreateKeepsLedger(w1, n, leases, a);
    var w2 := RecreatePrevious(w1).0;
    var w3 := RestoreAgent(w, fromAgent).0;
    if w3 != w1 && w3 != w2 { SameLedger(w2, w3, n, leases, false, a); }
  }

  lemma PatchKeepsLedger(w: World, p: Patch, n: nat, leases: seq<Lease>, a: string)
    requires Ledger(w, n, leases, false, a)
    ensures Ledger(PatchRecord(w, p).0, n, leases, false, a)
  {
    hide Ledger, Pause, Merge;
    PauseKeepsLedger(w, n, leases, false, a);
    var w1 := Pause(w);
    if Live(w1) && w1.record.Some? {
      var w2 := w1.(record := if Next(w1).ok || Next(w1).wrote then Some(Merge(w1.record.value, p)) else w1.record);
      SameLedger(w1, w2, n, leases, false, a);
      PauseKeepsLedger(w2, n, leases, false, a);
    }
  }

  lemma ConnectKeepsLedger(w: World, l: Lease, n: nat, leases: seq<Lease>, a: string)
    requires Ledger(w, n, leases, true, a) && l in leases && Current(w.session.bindings, l)
    ensures Ledger(Connect(w, l.adapterId), n, leases, true, a)
  {
    var bridged := Note(w, Connected(l.adapterId, w.session.actionsSuspended)).(bridges := w.bridges + {l.adapterId});
    ReboundGrows(w.log, n, Connected(l.adapterId, w.session.actionsSuspended), a);
    assert Ledger(bridged, n, leases, true, a) by {
      if l.adapterId == a { assert HasCurrent(w.session.bindings, leases, a); }
      hide ReboundSince, Current;
    }
    hide Ledger, Pause;
    PauseKeepsLedger(bridged, n, leases, true, a);
  }

  lemma {:induction false} ReconnectKeepsLedger(w: World, todo: seq<Lease>, n: nat, leases: seq<Lease>, a: string)
    requires Ledger(w, n, leases, true, a) && Among(todo, leases)
    ensures Ledger(Reconnect(w, todo).0, n, leases, true, a)
    decreases |todo|
  {
    hide Ledger, Current, Connect;
    if todo != [] {
      var l := todo[0];
      assert l in todo;
      if !Current(w.session.bindings, l) {
        ReconnectKeepsLedger(w, todo[1..], n, leases, a);
      } else if l.adapterId in w.adapters && Live(w) {
        ConnectKeepsLedger(w, l, n, leases, a);
        ReconnectKeepsLedger(Connect(w, l.adapterId), todo[1..], n, leases, a);
      }
    }
  }

  /** From here on the old bridges count too. */
  lemma LedgerRestores(w: World, n: nat, leases: seq<Lease>, a: string)
    requires Ledger(w, n, leases, false, a)
    ensures Ledger(w, n, leases, true, a)
  {
  }

  lemma RollbackKeepsLedger(w: World, plan: Plan, saved: Saved, a: string)
    ensures Ledger(Rollback(w, plan, saved).0, |w.log|, plan.leases, plan.hadBridges, a)
  {
    var n, w0 := |w.log|, Disconnect(w);
    assert Ledger(w0, n, plan.leases, false, a);
    hide Ledger, RestoreAgent, PatchRecord, Reconnect;
    RestoreKeepsLedger(w0, plan.fromAgent, n, plan.leases, a);
    var w1 := RestoreAgent(w0, plan.fromAgent).0;
    PatchKeepsLedger(w1, RollbackPatch(w1, plan, saved), n, plan.leases, a);
    var w2 := PatchRecord(w1, RollbackPatch(w1, plan, saved)).0;
    SameLedger(w2, Resume(w2), n, plan.leases, false, a);
    LedgerRestores(w0, n, plan.leases, a);
    LedgerRestores(w1, n, plan.leases, a);
    LedgerRestores(w2, n, plan.leases, a);
    LedgerRestores(Resume(w2), n, plan.leases, a);
    ReconnectKeepsLedger(Resume(w2), plan.leases, n, plan.leases, a);
    assert n <= |w1.log| && n <= |w2.log| by { LedgerLength(w1, n, plan.leases, a); LedgerLength(w2, n, plan.leases, a); }
  }

  lemma LedgerLength(w: World, n: nat, leases: seq<Lease>, a: string)
    requires Ledger(w, n, leases, false, a)
    ensures n <= |w.log|
  {
  }

  /**
   * Whatever runs beside it, a completed rollback leaves an attached adapter bridged exactly when the adapter
   * was bound anew after the rollback dropped the bridges, or has a current captured lease and the session
   * had bridges.  An adapter attached earlier in the switch has neither, and stays without.
   */
  lemma RollbackBridgesExactly(w: World, plan: Plan, saved: Saved, mark: nat, entry: HistoryEntry, a: string)
    requires Sound(w, plan.leases, mark)
    requires w.session.runtime.firstAgent == saved.firstAgent
    requires w.session.runtime.history == saved.history + [entry]
    requires entry.agentName == plan.fromAgent && entry.promptCount == saved.promptCount
    ensures var (w', restored) := Rollback(w, plan, saved);
      restored && Live(w') && a in w'.session.bindings.attached ==>
        (a in w'.bridges <==>
           ReboundSince(w'.log, |w.log|, a)
           || (plan.hadBridges && HasCurrent(w'.session.bindings, plan.leases, a)))
  {
    RollbackKeepsLedger(w, plan, saved, a);
    RollbackKeeps(w, plan, saved, mark, entry);
    hide Sound, Rollback, ReboundSince, Current, RunsOn, RecordCounts, Later;
  }

  /** From position n on: an attached adapter is bridged exactly when bound anew, or restored by a current lease. */
  ghost predicate BridgedSince(w: World, n: nat, leases: seq<Lease>, hadBridges: bool) {
    forall a :: a in w.session.bindings.attached ==>
      (a in w.bridges <==> ReboundSince(w.log, n, a) || (hadBridges && HasCurrent(w.session.bindings, leases, a)))
  }

  /** Since the failure was announced. */
  ghost predicate BridgedSinceFailure(w: World, leases: seq<Lease>, hadBridges: bool) {
    Live(w) ==>
      exists f :: 0 <= f < |w.log| && w.log[f].Failed? && BridgedSince(w, f + 1, leases, hadBridges)
  }

  lemma RecoverBridges(before: World, w: World, plan: Plan, mark: nat)
    requires Sound(w, plan.leases, mark) && plan.fromAgent == before.session.runtime.agentName
    requires
      var r := before.session.runtime;
      Live(w) ==>
        && w.session.runtime.firstAgent == r.firstAgent
        && w.session.runtime.history
           == r.history + [HistoryEntry(r.agentName, r.agentSessionId, before.session.promptCount)]
    ensures var (w', outcome) := Recover(w, plan, SaveIdentity(before));
      outcome.RolledBack? ==> BridgedSinceFailure(w', plan.leases, plan.hadBridges)
  {
    var (w', outcome) := Recover(w, plan, SaveIdentity(before));
    if Live(w) && outcome.RolledBack? && Live(w') {
      var r, failed, saved := before.session.runtime, Note(w, Failed), SaveIdentity(before);
      var entry := HistoryEntry(r.agentName, r.agentSessionId, before.session.promptCount);
      NoteKeepsSound(w, plan.leases, mark, Failed);
      hide Sound, Rollback, ReboundSince, HasCurrent, GiveUp;
      RollbackKeeps(failed, plan, saved, mark, entry);
      assert failed.log[|w.log|].Failed? && w'.log[|w.log|] == failed.log[|w.log|];
      assert BridgedSince(w', |w.log| + 1, plan.leases, plan.hadBridges) by {
        forall a | a in w'.session.bindings.attached
          ensures a in w'.bridges <==>
            ReboundSince(w'.log, |w.log| + 1, a)
            || (plan.hadBridges && HasCurrent(w'.session.bindings, plan.leases, a))
        {
          RollbackBridgesExactly(failed, plan, saved, mark, entry, a);
        }
      }
    }
  }

  lemma ExecuteBridges(w: World, plan: Plan, mark: nat)
    requires Sound(w, plan.leases, mark) && Agrees(w)
    requires plan.fromAgent == w.session.runtime.agentName != plan.toAgent
    ensures var (w', outcome) := Execute(w, plan);
      outcome.RolledBack? ==> BridgedSinceFailure(w', plan.leases, plan.hadBridges)
  {
    CommitKeeps(w, plan, mark);
    var (w1, made) := Commit(w, plan);
    hide Sound, Commit, Recover, BridgedSinceFailure, AllBridged, RunsOn;
    if made.NotCreated? { RecoverBridges(w, w1, plan, mark); }
  }

  lemma ProceedBridges(w: World, toAgent: string) returns (leases: seq<Lease>, hadBridges: bool)
    requires Sound(w, [], 0) && Live(w) && Agrees(w) && toAgent != w.session.runtime.agentName
    ensures var (w', outcome) := Proceed(w, toAgent);
      outcome.RolledBack? ==>
        && BridgedSinceFailure(w', leases, hadBridges)
        && Captured(leases, hadBridges) in w'.log
  {
    leases, hadBridges := [], false;
    if CaptureLeases(w.session.bindings).Some? {
      leases, hadBridges := CaptureLeases(w.session.bindings).value, w.bridges != {};
      CaptureKeeps(w, leases);
      var plan, w1, errors := Prepare(w, toAgent, leases);
      hide Sound, CleanAll, Execute, HasEntry, BridgedSinceFailure, EndsWell, CaptureLeases;
      if Live(w1) && errors == 0 {
        ExecuteKeeps(w1, plan, |w.log| + 2);
        ExecuteBridges(w1, plan, |w.log| + 2);
        assert Execute(w1, plan).0.log[|w.log| + 1] == w1.log[|w.log| + 1];
      }
      hide AbandonCleanup;
    }
  }

  /**
   * After every rolled back switch of a session that is still live, an attached adapter is bridged exactly when
   * it was attached again after the failure was announced, or it was captured, its lease is current and the
   * session had bridges.
   */
  lemma RolledBackBridgesExactly(w: World, toAgent: string) returns (leases: seq<Lease>, hadBridges: bool)
    requires Coherent(w) && !w.switching
    ensures var (w', outcome) := Switch(w, toAgent);
      outcome.RolledBack? ==>
        && Captured(leases, hadBridges) in w'.log
        && BridgedSinceFailure(w', leases, hadBridges)
  {
    var w0 := Begin(w);
    BeginSound(w);
    PauseKeeps(w0, [], 0, []);
    var w1 := if w0.hasMiddleware then Pause(w0) else w0;
    hide Sound, Pause, Proceed, HasCurrent, ReboundSince;
    leases, hadBridges := [], false;
    if w0.registered && toAgent in w0.installed && toAgent != w0.session.runtime.agentName && Live(w1) {
      leases, hadBridges := ProceedBridges(w1, toAgent);
      var (w2, outcome) := Proceed(w1, toAgent);
      if outcome.RolledBack? { UnlockedBridges(w2, leases, hadBridges); }
    }
    hide BridgedSinceFailure;
  }

  lemma UnlockedBridges(w: World, leases: seq<Lease>, hadBridges: bool)
    requires BridgedSinceFailure(w, leases, hadBridges)
    ensures BridgedSinceFailure(w.(switching := false), leases, hadBridges)
  {
    var w' := w.(switching := false);
    if Live(w) {
      var f :| 0 <= f < |w.log| && w.log[f].Failed? && BridgedSince(w, f + 1, leases, hadBridges);
      assert BridgedSince(w', f + 1, leases, hadBridges);
    }
  }
}
