/**
 * What a switch does exactly when nothing else runs beside it: which calls it makes in which
 * order, what a commit and what a rollback leave, and how single failures are made good.
 */
module AgentSwitchProgress {
  import opened Wrappers
  import opened AgentSwitch
  import opened AgentSwitchInvariant
  import opened AgentSwitchTheorems

  // ---- Ticks ----

  /** The ticks that are left after n pauses. */
  function After(future: seq<Tick>, n: nat): seq<Tick> {
    if n <= |future| then future[n..] else []
  }

  /** What the pause after n others brings. */
  function TickAt(future: seq<Tick>, n: nat): Tick {
    if n < |future| then future[n] else Tick([], true, "", false)
  }

  /** n pauses in which nothing else happens. */
  function Pass(w: World, n: nat): World {
    w.(future := After(w.future, n))
  }

  /** Nothing else runs while the transaction waits. */
  predicate Undisturbed(future: seq<Tick>) {
    forall i :: 0 <= i < |future| ==> future[i].actions == []
  }

  /** Moreover, every awaited operation succeeds. */
  predicate Smooth(future: seq<Tick>) {
    forall i :: 0 <= i < |future| ==> future[i].actions == [] && future[i].ok
  }

  lemma AfterTwice(future: seq<Tick>, m: nat, n: nat)
    ensures After(After(future, m), n) == After(future, m + n)
    ensures TickAt(After(future, m), n) == TickAt(future, m + n)
    ensures Undisturbed(future) ==> Undisturbed(After(future, m))
    ensures Smooth(future) ==> Smooth(After(future, m)) && Undisturbed(future) && TickAt(future, m).ok
  {
  }

  lemma UndisturbedPause(w: World)
    requires Undisturbed(w.future)
    ensures Pause(w) == Pass(w, 1) && Undisturbed(Pass(w, 1).future) && Next(w) == TickAt(w.future, 0)
  {
    assert ActAll(Pass(w, 1), []) == Pass(w, 1);
    AfterTwice(w.future, 1, 0);
  }

  lemma SmoothPause(w: World)
    requires Smooth(w.future)
    ensures Pause(w) == Pass(w, 1) && Smooth(Pass(w, 1).future) && Next(w) == TickAt(w.future, 0) && Next(w).ok
  {
    AfterTwice(w.future, 1, 0);
    UndisturbedPause(w);
    hide Pause;
  }

  // ---- Cleanup ----

  /** What an adapter is asked to do: the first way it has to retire action UI, then to clean its session state. */
  function CleanupsOf(adapter: Adapter, id: string, hidden: bool): seq<Event> {
    (if adapter.cleansActions then [Cleaned(id, CleanupAgentActionState, hidden)]
     else if adapter.cleansSkills then [Cleaned(id, CleanupSkillCommands, hidden)]
     else if adapter.sendsSkills then [Cleaned(id, SendNoSkillCommands, hidden)]
     else [])
    + (if adapter.cleansSessionState then [Cleaned(id, CleanupSessionState, hidden)] else [])
  }

  /** Cleanup calls for the current leases whose adapters are there, in order. */
  function Cleanups(b: Bindings, adapters: map<string, Adapter>, leases: seq<Lease>, hidden: bool): seq<Event> {
    if leases == [] then []
    else
      var l := leases[0];
      (if Current(b, l) && l.adapterId in adapters then CleanupsOf(adapters[l.adapterId], l.adapterId, hidden) else [])
      + Cleanups(b, adapters, leases[1..], hidden)
  }

  /** How many current leases lack their adapter. */
  function Missing(b: Bindings, adapters: map<string, Adapter>, leases: seq<Lease>): nat {
    if leases == [] then 0
    else (if Current(b, leases[0]) && leases[0].adapterId !in adapters then 1 else 0) + Missing(b, adapters, leases[1..])
  }

  /** How many of the next n awaited operations fail. */
  function Failures(future: seq<Tick>, n: nat): nat {
    if n == 0 then 0 else Failures(future, n - 1) + (if TickAt(future, n - 1).ok then 0 else 1)
  }

  lemma {:induction false} FailuresSplit(future: seq<Tick>, m: nat, n: nat)
    ensures Failures(future, m + n) == Failures(future, m) + Failures(After(future, m), n)
  {
    if n > 0 {
      FailuresSplit(future, m, n - 1);
      AfterTwice(future, m, n - 1);
      hide After, TickAt;
    }
  }

  lemma {:induction false} SmoothFailures(future: seq<Tick>, n: nat)
    requires Smooth(future)
    ensures Failures(future, n) == 0
  {
    if n > 0 { SmoothFailures(future, n - 1); }
  }

  /** The world after the calls `es` were made while nothing else ran. */
  function Done(w: World, es: seq<Event>): World {
    w.(log := w.log + es, future := After(w.future, |es|))
  }

  lemma UndisturbedCall(w: World, adapterId: string, call: CleanupCall)
    requires Undisturbed(w.future)
    ensures
      var es := [Cleaned(adapterId, call, w.session.actionsSuspended)];
      Call(w, adapterId, call) == (Done(w, es), Failures(w.future, 1)) && Undisturbed(Done(w, es).future)
  {
    UndisturbedPause(Note(w, Cleaned(adapterId, call, w.session.actionsSuspended)));
    hide Pause;
    assert Failures(w.future, 0) == 0;
  }

  lemma DoneTwice(w: World, a: seq<Event>, b: seq<Event>)
    requires Undisturbed(w.future)
    ensures Done(Done(w, a), b) == Done(w, a + b) && Undisturbed(Done(w, a).future)
    ensures Failures(w.future, |a + b|) == Failures(w.future, |a|) + Failures(Done(w, a).future, |b|)
  {
    hide After, Failures, Undisturbed;
    AfterTwice(w.future, |a|, |b|);
    FailuresSplit(w.future, |a|, |b|);
    LogTwice(w.log, a, b);
  }

  lemma LogTwice(log: seq<Event>, a: seq<Event>, b: seq<Event>)
    ensures log + a + b == log + (a + b)
  {
  }

  lemma UndisturbedCleanAdapter(w: World, l: Lease)
    requires Undisturbed(w.future) && Current(w.session.bindings, l) && l.adapterId in w.adapters
    ensures
      var es := CleanupsOf(w.adapters[l.adapterId], l.adapterId, w.session.actionsSuspended);
      CleanAdapter(w, l) == (Done(w, es), Failures(w.future, |es|))
  {
    var adapter, id, hidden := w.adapters[l.adapterId], l.adapterId, w.session.actionsSuspended;
    var es := RetiringEvents(adapter, id, hidden);
    hide Call, Current, Done, Failures, CleanupsOf, RetiringCall, CleanAdapter, RetiringEvents, Undisturbed;
    Retired(w, adapter, id);
    CleanupsInTwo(adapter, id, hidden);
    CleanAdapterInTwo(w, l);
    if adapter.cleansSessionState {
      DoneSession(w, es);
      UndisturbedCall(Done(w, es), id, CleanupSessionState);
      DoneTwice(w, es, [Cleaned(id, CleanupSessionState, hidden)]);
    }
  }

  /** The first of an adapter's cleanups. */
  function RetiringEvents(adapter: Adapter, id: string, hidden: bool): seq<Event> {
    var retiring := RetiringCall(adapter);
    if retiring.Some? then [Cleaned(id, retiring.value, hidden)] else []
  }

  lemma Retired(w: World, adapter: Adapter, id: string)
    requires Undisturbed(w.future)
    ensures
      var retiring, es := RetiringCall(adapter), RetiringEvents(adapter, id, w.session.actionsSuspended);
      (Done(w, es), Failures(w.future, |es|)) == if retiring.Some? then Call(w, id, retiring.value) else (w, 0)
  {
    var retiring := RetiringCall(adapter);
    hide Call, RetiringCall;
    if retiring.Some? { UndisturbedCall(w, id, retiring.value); } else { assert Done(w, []) == w; }
  }

  lemma CleanAdapterInTwo(w: World, l: Lease)
    requires Current(w.session.bindings, l) && l.adapterId in w.adapters
    ensures
      var adapter, retiring := w.adapters[l.adapterId], RetiringCall(w.adapters[l.adapterId]);
      var (w1, n1) := if retiring.Some? then Call(w, l.adapterId, retiring.value) else (w, 0);
      CleanAdapter(w, l) ==
        if adapter.cleansSessionState then
          (Call(w1, l.adapterId, CleanupSessionState).0, n1 + Call(w1, l.adapterId, CleanupSessionState).1)
        else (w1, n1)
  {
    hide Call, Current, RetiringCall;
  }

  lemma CleanupsInTwo(adapter: Adapter, id: string, hidden: bool)
    ensures
      var es := RetiringEvents(adapter, id, hidden);
      CleanupsOf(adapter, id, hidden)
        == if adapter.cleansSessionState then es + [Cleaned(id, CleanupSessionState, hidden)] else es
  {
  }

  lemma DoneSession(w: World, es: seq<Event>)
    requires Undisturbed(w.future)
    ensures Done(w, es).session == w.session && Done(w, es).adapters == w.adapters && Undisturbed(Done(w, es).future)
  {
    AfterTwice(w.future, |es|, 0);
  }

  /**
   * While nothing else runs the cleanup makes exactly the calls its current, available adapters offer, in the order of
   * the leases, whether or not others fail; and it counts each failed call and each missing adapter as one error.
   */
  lemma {:induction false} CleanupTriesEverything(w: World, leases: seq<Lease>)
    requires Undisturbed(w.future)
    ensures
      var es := Cleanups(w.session.bindings, w.adapters, leases, w.session.actionsSuspended);
      CleanAll(w, leases)
        == (Done(w, es), Failures(w.future, |es|) + Missing(w.session.bindings, w.adapters, leases))
    decreases |leases|
  {
    var b, hidden := w.session.bindings, w.session.actionsSuspended;
    if leases == [] {
      assert Done(w, []) == w;
    } else {
      var rest, es := leases[1..], FirstCleanups(w, leases);
      CleansFirst(w, leases);
      DoneSession(w, es);
      DoneTwice(w, es, Cleanups(b, w.adapters, rest, hidden));
      CleanupTriesEverything(Done(w, es), rest);
      hide *;
    }
  }

  function FirstCleanups(w: World, leases: seq<Lease>): seq<Event>
    requires leases != []
  {
    var l := leases[0];
    if Current(w.session.bindings, l) && l.adapterId in w.adapters
    then CleanupsOf(w.adapters[l.adapterId], l.adapterId, w.session.actionsSuspended) else []
  }

  lemma CleansFirst(w: World, leases: seq<Lease>)
    requires Undisturbed(w.future) && leases != []
    ensures
      var b, rest, es := w.session.bindings, leases[1..], FirstCleanups(w, leases);
      && CleanAll(w, leases) == (CleanAll(Done(w, es), rest).0,
           Failures(w.future, |es|) + (Missing(b, w.adapters, leases) - Missing(b, w.adapters, rest))
           + CleanAll(Done(w, es), rest).1)
      && Cleanups(b, w.adapters, leases, w.session.actionsSuspended)
           == es + Cleanups(b, w.adapters, rest, w.session.actionsSuspended)
  {
    FirstAdapterCleaned(w, leases);
    FirstCleanupsUnfold(w, leases);
    hide CleanupsOf, Current, Failures, Done, Cleanups, Missing, FirstCleanups, CleanAdapter, Undisturbed;
  }

  function FirstMissing(w: World, leases: seq<Lease>): nat
    requires leases != []
  {
    if Current(w.session.bindings, leases[0]) && leases[0].adapterId !in w.adapters then 1 else 0
  }

  lemma FirstAdapterCleaned(w: World, leases: seq<Lease>)
    requires Undisturbed(w.future) && leases != []
    ensures
      var es := FirstCleanups(w, leases);
      CleanAdapter(w, leases[0]) == (Done(w, es), Failures(w.future, |es|) + FirstMissing(w, leases))
  {
    var l := leases[0];
    if Current(w.session.bindings, l) && l.adapterId in w.adapters {
      UndisturbedCleanAdapter(w, l);
      hide CleanAdapter, Done, Failures;
    } else {
      assert Done(w, []) == w && Failures(w.future, 0) == 0;
    }
    hide CleanupsOf, Current;
  }

  lemma FirstCleanupsUnfold(w: World, leases: seq<Lease>)
    requires leases != []
    ensures
      var b, hidden, rest := w.session.bindings, w.session.actionsSuspended, leases[1..];
      && Cleanups(b, w.adapters, leases, hidden) == FirstCleanups(w, leases) + Cleanups(b, w.adapters, rest, hidden)
      && Missing(b, w.adapters, leases) == FirstMissing(w, leases) + Missing(b, w.adapters, rest)
  {
    hide CleanupsOf, Current;
  }

  /** Every current lease has its adapter. */
  predicate AllAvailable(w: World, leases: seq<Lease>) {
    forall l :: l in leases && Current(w.session.bindings, l) ==> l.adapterId in w.adapters
  }

  lemma {:induction false} NothingMissing(b: Bindings, adapters: map<string, Adapter>, leases: seq<Lease>)
    requires forall l :: l in leases && Current(b, l) ==> l.adapterId in adapters
    ensures Missing(b, adapters, leases) == 0
  {
    if leases != [] { NothingMissing(b, adapters, leases[1..]); }
  }

  // ---- Bridges ----

  /** The connections of the current leases, in order. */
  function Reconnections(b: Bindings, leases: seq<Lease>, hidden: bool): seq<Event> {
    if leases == [] then []
    else
      (if Current(b, leases[0]) then [Connected(leases[0].adapterId, hidden)] else []) + Reconnections(b, leases[1..], hidden)
  }

  function Bridged(b: Bindings, leases: seq<Lease>): set<string> {
    set l | l in leases && Current(b, l) :: l.adapterId
  }

  /** Some lease of the adapter is current. */
  predicate HasCurrent(b: Bindings, leases: seq<Lease>, adapterId: string) {
    exists l :: l in leases && l.adapterId == adapterId && Current(b, l)
  }

  lemma BridgedOneMore(b: Bindings, leases: seq<Lease>)
    requires leases != []
    ensures Bridged(b, leases)
      == (if Current(b, leases[0]) then {leases[0].adapterId} else {}) + Bridged(b, leases[1..])
  {
    hide Current;
    forall a | a in Bridged(b, leases)
      ensures a in (if Current(b, leases[0]) then {leases[0].adapterId} else {}) + Bridged(b, leases[1..])
    {
      var l :| l in leases && Current(b, l) && l.adapterId == a;
      assert l == leases[0] || l in leases[1..];
    }
  }

  /** Without interference a reconnection bridges exactly the current leases, in order. */
  lemma {:induction false} SmoothReconnect(w: World, leases: seq<Lease>)
    requires Smooth(w.future) && Live(w) && AllAvailable(w, leases)
    ensures
      var es := Reconnections(w.session.bindings, leases, w.session.actionsSuspended);
      Reconnect(w, leases) == (Done(w, es).(bridges := w.bridges + Bridged(w.session.bindings, leases)), true)
    decreases |leases|
  {
    var b, hidden := w.session.bindings, w.session.actionsSuspended;
    if leases == [] {
      assert Done(w, []) == w && w.bridges + Bridged(b, []) == w.bridges;
    } else {
      var l, rest := leases[0], leases[1..];
      assert l in leases;
      BridgedOneMore(b, leases);
      hide Current, Pause, Bridged;
      if Current(b, l) {
        var es, more := [Connected(l.adapterId, hidden)], Reconnections(b, rest, hidden);
        SmoothConnect(w, l.adapterId);
        var w1 := Connect(w, l.adapterId);
        hide Connect, Smooth, Undisturbed, After, Reconnections;
        SmoothReconnect(w1, rest);
        DoneTwice(w, es, more);
        assert w1.bridges + Bridged(b, rest) == w.bridges + ({l.adapterId} + Bridged(b, rest));
      } else {
        SmoothReconnect(w, rest);
        assert [] + Reconnections(b, rest, hidden) == Reconnections(b, rest, hidden);
        assert {} + Bridged(b, rest) == Bridged(b, rest);
      }
    }
  }

  lemma SmoothConnect(w: World, adapterId: string)
    requires Smooth(w.future)
    ensures
      var es := [Connected(adapterId, w.session.actionsSuspended)];
      && Connect(w, adapterId) == Done(w, es).(bridges := w.bridges + {adapterId})
      && Smooth(Connect(w, adapterId).future) && Undisturbed(w.future)
  {
    SmoothPause(Note(w, Connected(adapterId, w.session.actionsSuspended)).(bridges := w.bridges + {adapterId}));
    AfterTwice(w.future, 1, 0);
    hide Pause;
  }

  // ---- The record and the processes ----

  /** A record that the transaction has written: its identity is replaced, its lifecycle status is not. */
  function Rewritten(r: Option<Record>, agentName: string, id: string, firstAgent: string, promptCount: nat,
                     history: seq<HistoryEntry>): Option<Record> {
    if r.None? then None else Some(Record(agentName, id, firstAgent, promptCount, history, r.value.status))
  }

  lemma SmoothPatch(w: World, p: Patch)
    requires Smooth(w.future) && Live(w) && p.status.None?
    ensures PatchRecord(w, p) == (
      Pass(w, if w.record.Some? then 2 else 1).(
        record := Rewritten(w.record, p.agentName, p.agentSessionId, p.firstAgent, p.promptCount, p.history)), true)
  {
    SmoothPause(w);
    var w1 := Pass(w, 1);
    if w1.record.Some? {
      var w2 := w1.(record := Some(Merge(w1.record.value, p)));
      SmoothPause(w1);
      SmoothPause(w2);
      AfterTwice(w.future, 1, 1);
      hide Pause;
    } else {
      hide Pause;
    }
  }

  lemma SmoothSpawn(w: World, resumed: bool)
    requires Smooth(w.future) && !w.session.terminating
    ensures Spawn(w, resumed) == (Pass(w, 1), Created(TickAt(w.future, 0).id, resumed))
  {
    SmoothPause(w);
    hide Pause;
  }

  /** A fresh spawn waits for the conversation context first, if there is such a service. */
  lemma SmoothSpawnFresh(w: World)
    requires Smooth(w.future) && Live(w)
    ensures
      var n := if w.hasContext then 2 else 0;
      SpawnFresh(w) == (Pass(w, n + 1), Created(TickAt(w.future, n).id, false))
  {
    hide Pause, Spawn;
    AfterTwice(w.future, 1, 1);
    AfterTwice(w.future, 2, 1);
    AfterTwice(w.future, 2, 0);
    SmoothPause(w);
    SmoothPause(Pass(w, 1));
    assert Pass(Pass(w, 1), 1) == Pass(w, 2);
    if w.hasContext {
      SmoothSpawn(Pass(w, 2), false);
      assert Pass(Pass(w, 2), 1) == Pass(w, 3);
    } else {
      SmoothSpawn(w, false);
    }
  }

  /** How many pauses a replacement takes before the one that yields the process. */
  function Preparation(w: World, canResume: bool): nat {
    if !canResume && w.hasContext then 2 else 0
  }

  lemma SmoothCreate(w: World, canResume: bool)
    requires Smooth(w.future) && Live(w)
    ensures
      var n := Preparation(w, canResume);
      CreateReplacement(w, canResume) == (Pass(w, n + 1), Created(TickAt(w.future, n).id, canResume))
  {
    hide Spawn, SpawnFresh;
    SmoothSpawn(w, true);
    SmoothSpawnFresh(w);
  }

  /** The first awaited operation fails, and nothing goes wrong after it. */
  predicate FailsOnce(future: seq<Tick>) {
    future != [] && !future[0].ok && future[0].actions == [] && Smooth(future[1..])
  }

  lemma FailedSpawn(w: World, resumed: bool)
    requires FailsOnce(w.future)
    ensures Spawn(w, resumed) == (Pass(w, 1), NotCreated) && Pause(w) == Pass(w, 1)
  {
    assert ActAll(Pass(w, 1), []) == Pass(w, 1);
  }

  /** A resume that fails costs nothing but the resumption: a fresh agent, with its context, takes its place. */
  lemma FailedResumeFallsBack(w: World)
    requires Live(w) && FailsOnce(w.future)
    ensures
      var n := Preparation(w, false) + 1;
      CreateReplacement(w, true) == (Pass(w, n + 1), Created(TickAt(w.future, n).id, false))
  {
    FailedSpawn(w, true);
    var w1 := Pass(w, 1);
    SmoothSpawnFresh(w1);
    AfterTwice(w.future, 1, Preparation(w, false));
    AfterTwice(w.future, 1, Preparation(w, false) + 1);
    hide Spawn, SpawnFresh;
  }

  /** In the rollback, too, a failed resume of the previous agent falls back to a fresh one. */
  lemma PreviousAgentIsRespawned(w: World)
    requires Live(w) && FailsOnce(w.future)
    ensures RecreatePrevious(w) == (Pass(w, 2), Created(TickAt(w.future, 1).id, false))
  {
    FailedSpawn(w, true);
    var w1 := Pass(w, 1);
    SmoothSpawn(w1, false);
    AfterTwice(w.future, 1, 0);
    AfterTwice(w.future, 1, 1);
    hide Spawn;
  }

  /** The conversation context is best effort: when it cannot be flushed the fresh agent is spawned without it. */
  lemma FailedContextIsNoFailure(w: World)
    requires Live(w) && w.hasContext && FailsOnce(w.future)
    ensures SpawnFresh(w) == (Pass(w, 2), Created(TickAt(w.future, 1).id, false))
  {
    FailedSpawn(w, false);
    var w1 := Pass(w, 1);
    SmoothSpawn(w1, false);
    AfterTwice(w.future, 1, 0);
    AfterTwice(w.future, 1, 1);
    hide Pause, Spawn;
  }

  /** A session that ends while its replacement is prepared gets none: nothing more is waited for. */
  lemma EndedPreparationStops(w: World, canResume: bool)
    ensures canResume && !Live(Pause(w)) && !TickAt(w.future, 0).ok ==>
      CreateReplacement(w, canResume) == (Pause(w), NotCreated) && RecreatePrevious(w) == (Pause(w), NotCreated)
    ensures !canResume && w.hasContext && !Live(Pause(w)) ==>
      CreateReplacement(w, canResume) == (Pause(w), NotCreated)
    ensures !canResume && w.hasContext && Live(Pause(w)) && TickAt(w.future, 0).ok && !Live(Pause(Pause(w))) ==>
      CreateReplacement(w, canResume) == (Pause(Pause(w)), NotCreated)
  {
    hide Pause;
  }

  lemma SmoothDestroyAgent(w: World)
    requires Smooth(w.future)
    ensures
      var n := if w.session.runtime.running then 1 else 0;
      DestroyAgent(w)
        == (Pass(w, n).(session := w.session.(runtime := w.session.runtime.(running := false))), true)
    ensures Smooth(Pass(w, 1).future)
  {
    SmoothPause(w);
    hide Pause;
  }

  // ---- Replacing the agent ----

  /** The session runs `agentName` under `id`, with this history and prompt count. */
  function Running(s: Session, agentName: string, id: string, history: seq<HistoryEntry>, promptCount: nat): Session {
    s.(runtime := Runtime(agentName, id, s.runtime.firstAgent, history, true), promptCount := promptCount)
  }

  function EntryOf(s: Session): HistoryEntry {
    HistoryEntry(s.runtime.agentName, s.runtime.agentSessionId, s.promptCount)
  }

  /** How many pauses it takes until the new process reports its id. */
  function UntilId(w: World, canResume: bool): nat {
    (if w.session.runtime.running then 1 else 0) + Preparation(w, canResume)
  }

  lemma SmoothSwitchAgent(w: World, toAgent: string, canResume: bool)
    requires Smooth(w.future) && Live(w) && toAgent != w.session.runtime.agentName
    ensures
      var s, n := w.session, UntilId(w, canResume);
      var id := TickAt(w.future, n).id;
      SwitchAgent(w, toAgent, canResume) == (
        Pass(w, n + 1).(session :=
          Running(s, toAgent, id, s.runtime.history + [EntryOf(s)], 0).(actionsSuspended := true)),
        Created(id, canResume))
  {
    hide DestroyAgent, CreateReplacement;
    var w0 := PushHistory(Suspend(w));
    var d := if w.session.runtime.running then 1 else 0;
    SmoothDestroyAgent(w0);
    var w1 := DestroyAgent(w0).0;
    SmoothCreate(w1, canResume);
    AfterTwice(w.future, d, Preparation(w, canResume));
    AfterTwice(w.future, d, Preparation(w, canResume) + 1);
  }

  lemma SmoothRestoreAgent(w: World, fromAgent: string)
    requires Smooth(w.future) && Live(w)
    requires var h := w.session.runtime.history; h != [] && h[|h| - 1].agentName == fromAgent
    ensures
      var s, h, n := w.session, w.session.runtime.history, UntilId(w, true);
      RestoreAgent(w, fromAgent) == (
        Pass(w, n + 1).(session :=
          Running(s, fromAgent, TickAt(w.future, n).id, h[..|h| - 1], h[|h| - 1].promptCount)), true)
  {
    hide DestroyAgent, Spawn;
    var d := if w.session.runtime.running then 1 else 0;
    SmoothDestroyAgent(w);
    var w1 := DestroyAgent(w).0;
    SmoothSpawn(w1, true);
    AfterTwice(w.future, d, 0);
    AfterTwice(w.future, d, 1);
  }

  // ---- Commit and rollback ----

  /** The bridges come back, if there were any. */
  function Rebridged(w: World, plan: Plan): World {
    if plan.hadBridges then
      Done(w, Reconnections(w.session.bindings, plan.leases, w.session.actionsSuspended)).(
        bridges := w.bridges + Bridged(w.session.bindings, plan.leases))
    else w
  }

  lemma SmoothReconnectIf(w: World, plan: Plan)
    requires Smooth(w.future) && Live(w) && AllAvailable(w, plan.leases)
    ensures ReconnectIf(w, plan) == (Rebridged(w, plan), true)
    ensures Smooth(Rebridged(w, plan).future)
    ensures var w' := Rebridged(w, plan);
      w' == w.(log := w'.log, future := w'.future, bridges := w'.bridges)
  {
    SmoothReconnect(w, plan.leases);
    AfterTwice(w.future, |Reconnections(w.session.bindings, plan.leases, w.session.actionsSuspended)|, 0);
    hide Reconnect, Current;
  }

  /** A commit without interference and failures. */
  function Committed(w: World, plan: Plan): World {
    var s, n := w.session, UntilId(w, plan.canResume);
    var id, history := TickAt(w.future, n).id, s.runtime.history + [EntryOf(s)];
    var w1 := Rebridged(Pass(w, n + 1).(session := Running(s, plan.toAgent, id, history, 0).(actionsSuspended := true)), plan);
    Pass(w1, if w.record.Some? then 2 else 1).(
      session := w1.session.(actionsSuspended := false),
      record := Rewritten(w.record, plan.toAgent, id, s.runtime.firstAgent, 0, history))
  }

  lemma SmoothCommit(w: World, plan: Plan)
    requires Smooth(w.future) && Live(w) && plan.toAgent != w.session.runtime.agentName && AllAvailable(w, plan.leases)
    ensures Commit(w, plan)
      == (Committed(w, plan), Created(TickAt(w.future, UntilId(w, plan.canResume)).id, plan.canResume))
  {
    hide SwitchAgent, ReconnectIf, PatchRecord, Current, Smooth, Rebridged, UntilId, After, TickAt;
    SmoothSwitchAgent(w, plan.toAgent, plan.canResume);
    AfterTwice(w.future, UntilId(w, plan.canResume) + 1, 0);
    var w1 := SwitchAgent(w, plan.toAgent, plan.canResume).0;
    SmoothReconnectIf(w1, plan);
    var w2 := ReconnectIf(w1, plan).0;
    SmoothPatch(w2, CommitPatch(w2, plan));
  }

  /** A rollback without interference and further failures. */
  function RolledBackTo(w: World, plan: Plan, saved: Saved): World {
    var s, h, n := w.session, w.session.runtime.history, UntilId(w, true);
    var id := TickAt(w.future, n).id;
    var previous := if h == [] then s else Running(s, plan.fromAgent, id, h[..|h| - 1], h[|h| - 1].promptCount);
    Rebridged(
      Pass(w, n + 1 + (if w.record.Some? then 2 else 1)).(
        bridges := {},
        session := previous.(actionsSuspended := false),
        record := Rewritten(w.record, plan.fromAgent, id, saved.firstAgent, saved.promptCount, saved.history)),
      plan)
  }

  /**
   * A rollback that nothing disturbs and in which nothing else fails completes: session and record run the previous
   * agent with its history and prompt count, its actions are shown, and exactly the current captured adapters are
   * bridged, if there were bridges before.
   */
  lemma SmoothRollback(w: World, plan: Plan, saved: Saved)
    requires Smooth(w.future) && Live(w) && AllAvailable(w, plan.leases)
    requires var h := w.session.runtime.history; h != [] && h[|h| - 1].agentName == plan.fromAgent
    ensures Rollback(w, plan, saved) == (RolledBackTo(w, plan, saved), true)
    ensures Live(RolledBackTo(w, plan, saved))
    ensures RolledBackTo(w, plan, saved).session.bindings == w.session.bindings
    ensures RolledBackTo(w, plan, saved).bridges == if plan.hadBridges then Bridged(w.session.bindings, plan.leases) else {}
  {
    hide RestoreAgent, ReconnectIf, PatchRecord, Current, Smooth, UntilId, After, TickAt, Bridged, Reconnections;
    var w0 := Disconnect(w);
    SmoothRestoreAgent(w0, plan.fromAgent);
    var n := UntilId(w0, true);
    SameUntilId(w, w0);
    AfterTwice(w.future, n + 1, if w.record.Some? then 2 else 1);
    AfterTwice(w.future, n + 1 + (if w.record.Some? then 2 else 1), 0);
    var w1 := RestoreAgent(w0, plan.fromAgent).0;
    SmoothPatch(w1, RollbackPatch(w1, plan, saved));
    var w2 := PatchRecord(w1, RollbackPatch(w1, plan, saved)).0;
    SmoothReconnectIf(Resume(w2), plan);
  }

  lemma SameUntilId(w: World, w0: World)
    requires w0.session.runtime.running == w.session.runtime.running && w0.hasContext == w.hasContext
    ensures UntilId(w0, true) == UntilId(w, true)
  {
  }

  /** So a failed commit that is followed by no further failure is recovered from. */
  lemma OneFailureIsRecovered(w: World, plan: Plan, saved: Saved)
    requires Smooth(w.future) && Live(w) && AllAvailable(w, plan.leases)
    requires var h := w.session.runtime.history; h != [] && h[|h| - 1].agentName == plan.fromAgent
    ensures Recover(w, plan, saved) == (RolledBackTo(Note(w, Failed), plan, saved), RolledBack)
  {
    hide Rollback, RolledBackTo, Current, Smooth;
    SmoothRollback(Note(w, Failed), plan, saved);
  }

  /**
   * Giving up, while nothing else runs: the session is marked as failed, loses its bridges and ends; the record is
   * waited for and left as it is.
   */
  lemma UndisturbedGiveUp(w: World)
    requires Undisturbed(w.future) && Live(w) && !IsTerminal(w.session.status)
    ensures GiveUp(w) == (
      Pass(w, 2).(bridges := {}, log := w.log + [Gone],
                  session := w.session.(status := Error, terminating := true, actionsSuspended := true)),
      RollbackFailed)
  {
    var ended := w.(bridges := {}, log := w.log + [Gone],
                    session := w.session.(status := Error, terminating := true, actionsSuspended := true));
    UndisturbedPause(ended);
    UndisturbedPause(Pass(ended, 1));
    AfterTwice(w.future, 1, 1);
    assert DestroySession(Disconnect(Fail(w))) == Pass(ended, 1) by { hide Pause; }
    hide Pause, DestroySession;
  }

  // ---- The whole switch ----

  /** A session that a switch may start from: attached adapters have threads and are plugged in. */
  predicate Switchable(w: World, toAgent: string) {
    && w.registered && !w.session.terminating && !w.switching
    && toAgent in w.installed && toAgent != w.session.runtime.agentName
    && forall a :: a in w.session.bindings.attached ==>
         (a in w.session.bindings.threads || a == w.session.bindings.channelId) && a in w.adapters
  }

  /** The switch as a whole, from the world in which it was let through. */
  function SwitchedTo(w: World, toAgent: string, leases: seq<Lease>, resumed: bool): World {
    var b, hadBridges := w.session.bindings, w.bridges != {};
    var cleanups := Cleanups(b, w.adapters, leases, true);
    var cleaned := w.(
      log := w.log + [Starting, Captured(leases, hadBridges)] + cleanups,
      future := After(w.future, |cleanups|),
      bridges := {},
      session := w.session.(actionsSuspended := true));
    var done := Committed(cleaned, Plan(toAgent, w.session.runtime.agentName, resumed, leases, hadBridges));
    done.(log := done.log + [Succeeded(resumed)])
  }

  lemma SmoothProceed(w: World, toAgent: string, leases: seq<Lease>)
    requires Smooth(w.future) && Live(w) && toAgent != w.session.runtime.agentName
    requires CaptureLeases(w.session.bindings) == Some(leases)
    requires forall l :: l in leases ==> l.adapterId in w.adapters
    ensures
      var resumed := HasEntry(w.session.runtime.history, toAgent) && toAgent in w.resumable;
      Proceed(w, toAgent) == (SwitchedTo(w, toAgent, leases, resumed), Switched(resumed))
  {
    hide HasEntry, CaptureLeases, CleanAll, Commit, Current, Smooth, AbandonCleanup, Recover, Committed, Cleanups;
    var w0 := Suspend(Disconnect(Note(Note(w, Starting), Captured(leases, w.bridges != {}))));
    assert w0.log == w.log + [Starting, Captured(leases, w.bridges != {})];
    var es := Cleanups(w.session.bindings, w.adapters, leases, true);
    AfterTwice(w.future, |es|, 0);
    CleanupTriesEverything(w0, leases);
    SmoothFailures(w.future, |es|);
    NothingMissing(w.session.bindings, w.adapters, leases);
    var w1 := CleanAll(w0, leases).0;
    var plan := Plan(toAgent, w.session.runtime.agentName,
                     HasEntry(w.session.runtime.history, toAgent) && toAgent in w.resumable, leases, w.bridges != {});
    SmoothCommit(w1, plan);
  }

  /**
   * Without interference and failures a switch commits, and resumes the agent exactly when the session used it before
   * and it can be resumed. What happened, in which order, and what is left is `SwitchedTo`: the start announced, every
   * attached adapter captured, all bridges dropped, the cleanup calls made with the actions hidden; then the new agent
   * under the id its process reported, with the old one at the end of the history and a prompt count of zero, in
   * session and record; the bridges back, if there were any, the actions shown, and the success announced last.
   */
  lemma SmoothSwitchCommits(w: World, toAgent: string) returns (leases: seq<Lease>)
    requires Smooth(w.future) && Switchable(w, toAgent)
    ensures
      && (forall l :: l in leases ==>
            && Current(w.session.bindings, l)
            && l.threadId == (if l.adapterId in w.session.bindings.threads
                              then w.session.bindings.threads[l.adapterId] else ""))
      && (forall a :: a in w.session.bindings.attached ==> exists l :: l in leases && l.adapterId == a)
      && (forall i, j :: 0 <= i < j < |leases| ==> leases[i].adapterId != leases[j].adapterId)
    ensures
      var resumed := toAgent in w.resumable
        && exists i :: 0 <= i < |w.session.runtime.history| && w.session.runtime.history[i].agentName == toAgent;
      var admitted := w.(
        switching := true, log := [], future := if w.hasMiddleware then After(w.future, 1) else w.future);
      Switch(w, toAgent) == (SwitchedTo(admitted, toAgent, leases, resumed).(switching := false), Switched(resumed))
  {
    var w0 := Begin(w);
    SmoothPause(w0);
    AfterTwice(w.future, 1, 0);
    var w1 := if w0.hasMiddleware then Pause(w0) else w0;
    var b := w.session.bindings;
    CaptureCovers(b);
    assert CaptureLeases(b).Some? by {
      assert forall a :: a in b.attached ==> ThreadOf(b, a).Some?;
    }
    leases := CaptureLeases(b).value;
    assert forall l :: l in leases ==> l.adapterId in w.adapters;
    SmoothProceed(w1, toAgent, leases);
    var resumed := HasEntry(w.session.runtime.history, toAgent) && toAgent in w.resumable;
    hide Proceed, Pause, CaptureLeases, SwitchedTo;
  }
}
