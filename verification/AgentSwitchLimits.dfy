/**
 * Where the switch keeps less than one might expect, with the exact condition and
 * a concrete run for each case.
 */
module AgentSwitchLimits {
  import opened Wrappers
  import opened AgentSwitch

  // ---- A reconnection stops at the first unavailable adapter ----

  /** Nothing else runs while the transaction waits. */
  predicate Undisturbed(w: World) {
    forall i :: 0 <= i < |w.future| ==> w.future[i].actions == []
  }

  predicate Available(w: World, l: Lease) {
    Current(w.session.bindings, l) ==> l.adapterId in w.adapters
  }

  predicate Reached(w: World, leases: seq<Lease>, i: nat)
    requires i < |leases|
  {
    forall j :: 0 <= j <= i ==> Available(w, leases[j])
  }

  lemma UndisturbedConnect(w: World, adapterId: string)
    requires Undisturbed(w)
    ensures var w' := Connect(w, adapterId);
      && Undisturbed(w') && w'.session == w.session && w'.adapters == w.adapters && Live(w') == Live(w)
      && w'.bridges == w.bridges + {adapterId}
  {
    assert ActAll(w, []) == w;
  }

  /**
   * Reconnecting bridges a current lease exactly when its own adapter and that of every
   * current lease before it is available; an unavailable adapter takes all later ones with it.
   */
  lemma {:induction false} ReconnectStopsAtUnavailable(w: World, leases: seq<Lease>, i: nat)
    requires Undisturbed(w) && Live(w) && i < |leases|
    requires forall j, k :: 0 <= j < k < |leases| ==> leases[j].adapterId != leases[k].adapterId
    ensures leases[i].adapterId in Reconnect(w, leases).0.bridges
      <==> leases[i].adapterId in w.bridges || (Current(w.session.bindings, leases[i]) && Reached(w, leases, i))
    ensures Reconnect(w, leases).1 <==> Reached(w, leases, |leases| - 1)
    decreases |leases|
  {
    hide Connect, Current;
    var l, rest := leases[0], leases[1..];
    if Available(w, l) {
      var next := if Current(w.session.bindings, l) then Connect(w, l.adapterId) else w;
      UndisturbedConnect(w, l.adapterId);
      assert Reconnect(w, leases) == Reconnect(next, rest);
      assert forall k :: 0 <= k < |rest| ==> (Reached(w, leases, k + 1) <==> Reached(next, rest, k)) by {
        forall k | 0 <= k < |rest| ensures Reached(w, leases, k + 1) <==> Reached(next, rest, k) {
          ReachedRest(w, next, leases, k);
        }
      }
      if rest != [] {
        ReconnectStopsAtUnavailable(next, rest, if i == 0 then 0 else i - 1);
        if i == 0 { ReconnectKeepsBridge(next, rest, l.adapterId); }
      }
    } else {
      assert !Reached(w, leases, i) && !Reached(w, leases, |leases| - 1);
    }
  }

  lemma ReachedRest(w: World, next: World, leases: seq<Lease>, k: nat)
    requires k + 1 < |leases| && Available(w, leases[0])
    requires next.session == w.session && next.adapters == w.adapters
    ensures Reached(w, leases, k + 1) <==> Reached(next, leases[1..], k)
  {
    hide Current;
    if Reached(next, leases[1..], k) {
      forall j | 0 <= j <= k + 1 ensures Available(w, leases[j]) {
        if j > 0 { assert leases[1..][j - 1] == leases[j] && Available(next, leases[1..][j - 1]); }
      }
    }
    if Reached(w, leases, k + 1) {
      forall j | 0 <= j <= k ensures Available(next, leases[1..][j]) {
        assert Available(w, leases[j + 1]);
      }
    }
  }

  /** Undisturbed reconnection bridges only the adapters of its leases. */
  lemma {:induction false} ReconnectKeepsBridge(w: World, leases: seq<Lease>, adapterId: string)
    requires Undisturbed(w) && forall j :: 0 <= j < |leases| ==> leases[j].adapterId != adapterId
    ensures adapterId in Reconnect(w, leases).0.bridges <==> adapterId in w.bridges
    decreases |leases|
  {
    hide Connect, Current;
    if leases != [] {
      UndisturbedConnect(w, leases[0].adapterId);
      ReconnectKeepsBridge(w, leases[1..], adapterId);
      ReconnectKeepsBridge(Connect(w, leases[0].adapterId), leases[1..], adapterId);
    }
  }

  // ---- Concrete runs ----

  const PLAIN := Adapter(false, false, false, false)
  const CLEANING := Adapter(true, false, false, false)

  /** A session on "claude", attached to "telegram" and "sse", about to move to "gemini". */
  function Example(adapters: map<string, Adapter>, status: Status, future: seq<Tick>): World {
    World(
      Session(Runtime("claude", "s1", "claude", [], true), 0,
              Bindings("telegram", ["telegram", "sse"], map["telegram" := "42", "sse" := "7"], map[]),
              status, false, false),
      true, adapters, {"telegram", "sse"},
      Some(Record("claude", "s1", "claude", 0, [], Active)),
      {"claude", "gemini"}, {}, false, false, false, [], future)
  }

  const TELEGRAM := Lease("telegram", "42", 0)
  const SSE := Lease("sse", "7", 0)

  lemma ExampleCapture(w: World)
    requires w.session.bindings == Example(map[], Active, []).session.bindings
    ensures CaptureLeases(w.session.bindings) == Some([TELEGRAM, SSE])
  {
    var b, ids := w.session.bindings, ["telegram", "sse"];
    assert ids[..1] == ["telegram"] && ["telegram"][..0] == [];
    assert Distinct(["telegram"]) == ["telegram"];
    assert Distinct(ids) == ids;
    assert b.threads == map["telegram" := "42", "sse" := "7"];
    assert ids[1..] == ["sse"] && ["sse"][1..] == [];
    assert [SSE] + [] == [SSE] && [TELEGRAM] + [SSE] == [TELEGRAM, SSE];
    assert LeasesOf(b, []) == Some([]);
    assert LeasesOf(b, ["sse"]) == Some([SSE]);
    assert LeasesOf(b, ids) == Some([TELEGRAM, SSE]);
  }

  function AfterCapture(w: World): World {
    Suspend(Disconnect(Note(Note(w, Starting), Captured([TELEGRAM, SSE], w.bridges != {}))))
  }

  const PLAN := Plan("gemini", "claude", false, [TELEGRAM, SSE], true)

  /** The example's switch, from the end of its cleanup on. */
  lemma ExampleSwitch(adapters: map<string, Adapter>, future: seq<Tick>, w1: World, errors: nat)
    requires CleanAll(AfterCapture(Begin(Example(adapters, Active, future))), [TELEGRAM, SSE]) == (w1, errors)
    requires Live(w1)
    ensures
      var (w2, outcome) := if errors > 0 then AbandonCleanup(w1, PLAN) else Execute(w1, PLAN);
      Switch(Example(adapters, Active, future), "gemini") == (w2.(switching := false), outcome)
  {
    var w := Begin(Example(adapters, Active, future));
    ExampleCapture(w);
    hide CleanAll, AbandonCleanup, Execute;
    assert Proceed(w, "gemini") == if errors > 0 then AbandonCleanup(w1, PLAN) else Execute(w1, PLAN);
  }

  /** Cleaning the example's two adapters, one after the other. */
  lemma CleanBoth(w: World)
    ensures
      var (w1, n1) := CleanAdapter(w, TELEGRAM);
      var (w2, n2) := CleanAdapter(w1, SSE);
      CleanAll(w, [TELEGRAM, SSE]) == (w2, n1 + n2)
  {
    hide CleanAdapter;
    assert [TELEGRAM, SSE][1..] == [SSE] && [SSE][1..] == [];
    var w1 := CleanAdapter(w, TELEGRAM).0;
    assert CleanAll(w1, [SSE]) == CleanAdapter(w1, SSE);
  }

  /** Neither adapter needs cleaning. */
  lemma NothingToClean(w: World)
    requires Current(w.session.bindings, TELEGRAM) && Current(w.session.bindings, SSE)
    requires "telegram" in w.adapters && "sse" in w.adapters
    requires w.adapters["telegram"] == PLAIN && w.adapters["sse"] == PLAIN
    ensures CleanAll(w, [TELEGRAM, SSE]) == (w, 0)
  {
    hide Current;
    CleanBoth(w);
  }

  /** One adapter disappeared: the failed cleanup also leaves the other, untouched one unbridged. */
  lemma CleanupFailureStrandsLaterAdapters()
    ensures var (w', outcome) := Switch(Example(map["sse" := PLAIN], Active, []), "gemini");
      outcome.CleanupFailed? && Live(w') && Current(w'.session.bindings, SSE) && "sse" in w'.adapters
      && w'.bridges == {}
  {
    var w0 := AfterCapture(Begin(Example(map["sse" := PLAIN], Active, [])));
    CleanBoth(w0);
    ExampleSwitch(map["sse" := PLAIN], [], w0, 1);
    hide Switch;
    assert Reconnect(Resume(w0), PLAN.leases) == (Resume(w0), false);
  }

  /** A pause whose only effect is to move on to the next tick. */
  lemma QuietPause(w: World)
    requires Next(w).actions == []
    ensures Pause(w) == w.(future := if w.future == [] then [] else w.future[1..])
  {
  }

  lemma PauseWithOne(w: World, a: Action)
    requires Next(w).actions == [a]
    ensures Pause(w) == Act(w.(future := if w.future == [] then [] else w.future[1..]), a)
  {
    assert [a][1..] == [];
    var w1 := Act(w.(future := if w.future == [] then [] else w.future[1..]), a);
    assert ActAll(w1, []) == w1;
  }

  const REFUSES := Tick([], false, "", false)
  const ENDS := Tick([Terminate(false)], true, "", false)

  /** The first bridge to come back ends the session; the failure is announced next. */
  lemma EndedWhileReconnecting(w: World)
    requires Live(w) && w.bridges == {} && w.future == [ENDS]
    requires Current(w.session.bindings, TELEGRAM) && Current(w.session.bindings, SSE)
    requires "telegram" in w.adapters
    ensures var (w', outcome) := AbandonCleanup(w, PLAN);
      outcome.CleanupFailed? && !Live(w') && w'.log == w.log + [Connected("telegram", false)] + [Gone] + [Failed]
  {
    var w2 := Resume(w);
    var connected := Note(w2, Connected("telegram", false)).(bridges := w2.bridges + {"telegram"});
    PauseWithOne(connected, Terminate(false));
    var w3 := Connect(w2, "telegram");
    assert [TELEGRAM, SSE][1..] == [SSE];
    assert Reconnect(w3, [SSE]).0 == w3;
    assert Reconnect(w2, [TELEGRAM, SSE]).0 == w3;
  }

  const ONE_CLEANS := map["telegram" := CLEANING, "sse" := PLAIN]

  /** A failed cleanup, and a termination while the old bridges come back: the failure is announced all the same. */
  lemma FailureAnnouncedAfterTheEnd()
    ensures
      var (w', outcome) := Switch(Example(ONE_CLEANS, Active, [REFUSES, ENDS]), "gemini");
      outcome.CleanupFailed? && !Live(w')
      && |w'.log| >= 2 && w'.log[|w'.log| - 2] == Gone && w'.log[|w'.log| - 1] == Failed
  {
    hide Switch, AbandonCleanup, CleanAll;
    var w0 := AfterCapture(Begin(Example(ONE_CLEANS, Active, [REFUSES, ENDS])));
    var w1 := Note(w0, Cleaned("telegram", CleanupAgentActionState, true)).(future := [ENDS]);
    FirstCleanupFails(w0);
    ExampleSwitch(ONE_CLEANS, [REFUSES, ENDS], w1, 1);
    EndedWhileReconnecting(w1);
  }

  lemma FirstCleanupFails(w: World)
    requires w.future == [REFUSES, ENDS] && w.adapters == ONE_CLEANS && w.session.actionsSuspended
    requires Current(w.session.bindings, TELEGRAM) && Current(w.session.bindings, SSE)
    ensures
      var w1 := Note(w, Cleaned("telegram", CleanupAgentActionState, true)).(future := [ENDS]);
      CleanAll(w, [TELEGRAM, SSE]) == (w1, 1)
  {
    hide Current;
    var noted := Note(w, Cleaned("telegram", CleanupAgentActionState, true));
    assert noted.future[1..] == [ENDS];
    QuietPause(noted);
    CleanBoth(w);
  }

  const BOTH_PLAIN := map["telegram" := PLAIN, "sse" := PLAIN]
  const FINISHES := Tick([Finish], false, "", false)

  lemma FinishedThroughout(w: World)
    requires Live(w) && w.session.status.Active? && w.future == [FINISHES, REFUSES]
    requires w.session.runtime.running && w.session.runtime.agentName == "claude" && w.bridges == {}
    ensures var (w', outcome) := Execute(w, PLAN);
      && outcome.FailRejected? && Live(w') && w'.bridges == {} && w'.record == w.record
      && |w'.session.runtime.history| == |w.session.runtime.history| + 1
  {
    var pushed := PushHistory(Suspend(w));
    assert pushed.future[1..] == [REFUSES] && [REFUSES][1..] == [];
    PauseWithOne(pushed, Finish);
    var w1 := Pause(pushed);
    assert SwitchAgent(w, "gemini", false) == (w1, NotCreated);
    assert Commit(w, PLAN) == (w1, NotCreated);
    var failed := Disconnect(Note(w1, Failed));
    QuietPause(failed);
    assert RestoreAgent(failed, "claude") == (Pause(failed), false);
    assert Rollback(Note(w1, Failed), PLAN, SaveIdentity(w)) == (Pause(failed), false);
    hide Commit, Rollback;
  }

  /**
   * The session finishes while its old agent refuses to be torn down, in the switch and again in
   * the rollback: `session.fail` throws, and the session stays live, without a bridge, with a
   * history the record does not have.
   */
  lemma FinishedSessionIsNotFailed()
    ensures
      var (w', outcome) := Switch(Example(BOTH_PLAIN, Active, [FINISHES, REFUSES]), "gemini");
      && outcome.FailRejected? && Live(w') && w'.bridges == {}
      && w'.record.Some? && w'.record.value.history != w'.session.runtime.history
  {
    var w0 := AfterCapture(Begin(Example(BOTH_PLAIN, Active, [FINISHES, REFUSES])));
    NothingToClean(w0);
    ExampleSwitch(BOTH_PLAIN, [FINISHES, REFUSES], w0, 0);
    FinishedThroughout(w0);
    hide Switch, Execute;
  }

  lemma RefusedThroughout(w: World)
    requires Live(w) && w.session.status.Active? && w.future == [REFUSES, REFUSES]
    requires w.session.runtime.running && w.session.runtime.agentName == "claude" && w.record.Some?
    ensures var (w', outcome) := Execute(w, PLAN);
      outcome.RollbackFailed? && w'.session.status.Error? && w'.session.terminating && w'.record == w.record
  {
    var pushed := PushHistory(Suspend(w));
    assert pushed.future[1..] == [REFUSES] && [REFUSES][1..] == [];
    QuietPause(pushed);
    var w1 := Pause(pushed);
    assert SwitchAgent(w, "gemini", false) == (w1, NotCreated);
    assert Commit(w, PLAN) == (w1, NotCreated);
    var failed := Disconnect(Note(w1, Failed));
    QuietPause(failed);
    var w2 := Pause(failed);
    assert RestoreAgent(failed, "claude") == (w2, false);
    assert Rollback(Note(w1, Failed), PLAN, SaveIdentity(w)) == (w2, false);
    hide Commit, Rollback;
    GivenUp(w2);
    hide GiveUp;
  }

  lemma GivenUp(w: World)
    requires Live(w) && w.session.status.Active? && w.future == [] && w.record.Some?
    ensures var (w', outcome) := GiveUp(w);
      outcome.RollbackFailed? && w'.session.status.Error? && w'.session.terminating && w'.record == w.record
  {
    var w0 := Disconnect(Fail(w));
    var ended := NoteGone(w0).(session := w0.session.(terminating := true, actionsSuspended := true));
    QuietPause(ended);
    QuietPause(DestroySession(w0));
  }

  /** The old agent refuses to be torn down, in the switch and again in the rollback: the session fails, its record stays active. */
  lemma DoubleFailureLeavesActiveRecord()
    ensures
      var w := Example(BOTH_PLAIN, Active, [REFUSES, REFUSES]);
      var (w', outcome) := Switch(w, "gemini");
      && outcome.RollbackFailed? && w'.session.status.Error? && w'.session.terminating
      && w'.record == w.record && w'.record.Some? && w'.record.value.status.Active?
  {
    var w0 := AfterCapture(Begin(Example(BOTH_PLAIN, Active, [REFUSES, REFUSES])));
    NothingToClean(w0);
    ExampleSwitch(BOTH_PLAIN, [REFUSES, REFUSES], w0, 0);
    RefusedThroughout(w0);
    hide Switch, Execute;
  }

  const WITH_SLACK := map["telegram" := PLAIN, "sse" := PLAIN, "slack" := PLAIN]
  const ATTACHES := Tick([Attach("slack", "9")], true, "", false)

  lemma AttachedBeforeFailure(w: World)
    requires Live(w) && w.future == [ATTACHES, REFUSES]
    requires w.session.runtime == Runtime("claude", "s1", "claude", [], true) && w.session.promptCount == 0
    requires w.record.Some? && !w.hasContext
    requires Current(w.session.bindings, TELEGRAM) && Current(w.session.bindings, SSE)
    requires "slack" !in w.session.bindings.attached && "slack" in w.adapters
    requires "telegram" in w.adapters && "sse" in w.adapters
    ensures var (w', outcome) := Execute(w, PLAN);
      && outcome.RolledBack? && Live(w') && "slack" in w'.session.bindings.attached
      && w'.bridges == {"telegram", "sse"}
  {
    var pushed := PushHistory(Suspend(w));
    assert pushed.future[1..] == [REFUSES] && [REFUSES][1..] == [];
    PauseWithOne(pushed, Attach("slack", "9"));
    var w1 := DestroyAgent(pushed).0;
    QuietPause(w1);
    var w2 := w1.(future := []);
    assert CreateReplacement(w1, false) == (w2, NotCreated);
    assert SwitchAgent(w, "gemini", false) == (w2, NotCreated);
    assert Commit(w, PLAN) == (w2, NotCreated);
    assert Current(w2.session.bindings, TELEGRAM) && Current(w2.session.bindings, SSE);
    hide Commit, Current;
    RollbackUndisturbed(Note(w2, Failed), PLAN, SaveIdentity(w));
    hide Rollback;
  }

  /** An adapter that attaches during the switch loses its bridge to the rollback, which only restores captured ones. */
  lemma RollbackDropsNewBridges()
    ensures
      var (w', outcome) := Switch(Example(WITH_SLACK, Active, [ATTACHES, REFUSES]), "gemini");
      && outcome.RolledBack? && Live(w') && "slack" in w'.session.bindings.attached
      && w'.bridges == {"telegram", "sse"}
  {
    var w0 := AfterCapture(Begin(Example(WITH_SLACK, Active, [ATTACHES, REFUSES])));
    NothingToClean(w0);
    ExampleSwitch(WITH_SLACK, [ATTACHES, REFUSES], w0, 0);
    AttachedBeforeFailure(w0);
    hide Switch, Execute;
  }

  /** A rollback that nothing disturbs bridges the example's two adapters and no other. */
  lemma RollbackUndisturbed(w: World, plan: Plan, saved: Saved)
    requires w.future == [] && Live(w) && !w.session.runtime.running
    requires w.session.runtime.history == [HistoryEntry("claude", "s1", 0)] && w.record.Some?
    requires plan.fromAgent == "claude" && plan.hadBridges && plan.leases == [TELEGRAM, SSE]
    requires Current(w.session.bindings, TELEGRAM) && Current(w.session.bindings, SSE)
    requires "telegram" in w.adapters && "sse" in w.adapters
    ensures var (w', restored) := Rollback(w, plan, saved);
      && restored && Live(w') && w'.session.bindings == w.session.bindings && w'.bridges == {"telegram", "sse"}
  {
    hide Current;
    var w0 := Disconnect(w);
    QuietPause(w0);
    assert w0.(future := []) == w0;
    var (w1, restored) := RestoreAgent(w0, "claude");
    assert restored && w1.future == [] && w1.session.bindings == w.session.bindings && w1.adapters == w.adapters;
    var p := RollbackPatch(w1, plan, saved);
    QuietPause(w1);
    assert w1.(future := []) == w1;
    var w2 := w1.(record := Some(Merge(w1.record.value, p)));
    QuietPause(w2);
    assert PatchRecord(w1, p) == (w2, true);
    ReconnectBoth(Resume(w2));
    hide Reconnect, RestoreAgent, PatchRecord;
  }

  lemma ReconnectBoth(w: World)
    requires w.future == [] && Live(w) && w.bridges == {}
    requires Current(w.session.bindings, TELEGRAM) && Current(w.session.bindings, SSE)
    requires "telegram" in w.adapters && "sse" in w.adapters
    ensures var (w', completed) := Reconnect(w, [TELEGRAM, SSE]);
      completed && Live(w') && w'.session.bindings == w.session.bindings && w'.bridges == {"telegram", "sse"}
  {
    hide Current, Connect;
    UndisturbedConnect(w, "telegram");
    var w1 := Connect(w, "telegram");
    UndisturbedConnect(w1, "sse");
    var w2 := Connect(w1, "sse");
    assert [TELEGRAM, SSE][1..] == [SSE] && [SSE][1..] == [];
    assert Reconnect(w2, []) == (w2, true);
    assert Reconnect(w1, [SSE]) == (w2, true);
    assert Reconnect(w, [TELEGRAM, SSE]) == (w2, true);
  }
}
