/**
 * What each step of an agent switch achieves and what it keeps.
 */
module AgentSwitchSteps {
  import opened Wrappers
  import opened AgentSwitch
  import opened AgentSwitchInvariant

  // ---- Bridges ----

  /** A current lease's adapter was not rebound since the capture, so bridging it is no rebridging. */
  lemma ConnectKeeps(w: World, l: Lease, leases: seq<Lease>, mark: nat, done: seq<Lease>)
    requires Sound(w, leases, mark) && Among(done, leases) && AllBridged(w, done)
    requires l in leases && Live(w) && Current(w.session.bindings, l)
    ensures var w' := Connect(w, l.adapterId);
      Sound(w', leases, mark) && Beside(w, w') && AllBridged(w', done + [l])
  {
    var bridged := Note(w, Connected(l.adapterId, w.session.actionsSuspended)).(bridges := w.bridges + {l.adapterId});
    assert MayFollow(w.log, mark, Connected(l.adapterId, w.session.actionsSuspended));
    NoteKeepsSound(w, leases, mark, Connected(l.adapterId, w.session.actionsSuspended));
    assert Sound(bridged, leases, mark) && AllBridged(bridged, done + [l]) && Beside(w, bridged) by {
      hide LogSound, ReboundSince, HasGone, Current, Generation;
    }
    hide Sound, AllBridged;
    PauseKeeps(bridged, leases, mark, done + [l]);
  }

  lemma {:induction false} ReconnectKeeps(w: World, todo: seq<Lease>, leases: seq<Lease>, mark: nat,
                                          done: seq<Lease>)
    requires Sound(w, leases, mark) && Among(done + todo, leases) && AllBridged(w, done)
    ensures var (w', completed) := Reconnect(w, todo);
      && Sound(w', leases, mark)
      && Beside(w, w')
      && AllBridged(w', done)
      && (completed ==> AllBridged(w', done + todo))
    decreases |todo|
  {
    hide Sound, Current, Connect, Act;
    if todo == [] {
      assert done + todo == done;
    } else {
      var l, rest := todo[0], todo[1..];
      assert l in done + todo;
      assert (done + [l]) + rest == done + todo;
      assert AllBridged(w, done + [l]) || Current(w.session.bindings, l);
      if !Current(w.session.bindings, l) {
        ReconnectKeeps(w, rest, leases, mark, done + [l]);
        assert AllBridged(Reconnect(w, rest).0, done);
      } else if l.adapterId in w.adapters && Live(w) {
        assert Among(done, leases);
        ConnectKeeps(w, l, leases, mark, done);
        ReconnectKeeps(Connect(w, l.adapterId), rest, leases, mark, done + [l]);
        assert AllBridged(Reconnect(w, todo).0, done);
      }
    }
  }

  lemma ReconnectIfKeeps(w: World, plan: Plan, mark: nat)
    requires Sound(w, plan.leases, mark)
    ensures var (w', completed) := ReconnectIf(w, plan);
      && Sound(w', plan.leases, mark)
      && Beside(w, w')
      && (completed && plan.hadBridges ==> AllBridged(w', plan.leases))
  {
    hide Sound, Reconnect;
    if plan.hadBridges {
      assert [] + plan.leases == plan.leases;
      ReconnectKeeps(w, plan.leases, plan.leases, mark, []);
    }
  }

  // ---- Cleanup ----

  lemma CallKeeps(w: World, adapterId: string, call: CleanupCall, leases: seq<Lease>, mark: nat)
    requires Sound(w, leases, mark)
    ensures Sound(Call(w, adapterId, call).0, leases, mark)
    ensures Beside(w, Call(w, adapterId, call).0)
  {
    var noted := Note(w, Cleaned(adapterId, call, w.session.actionsSuspended));
    NoteKeepsSound(w, leases, mark, Cleaned(adapterId, call, w.session.actionsSuspended));
    hide Sound, Pause;
    PauseKeeps(noted, leases, mark, []);
  }

  lemma CleanAdapterKeeps(w: World, l: Lease, leases: seq<Lease>, mark: nat)
    requires Sound(w, leases, mark)
    ensures Sound(CleanAdapter(w, l).0, leases, mark)
    ensures Beside(w, CleanAdapter(w, l).0)
  {
    hide Sound, Call, Current;
    if Current(w.session.bindings, l) && l.adapterId in w.adapters {
      var adapter := w.adapters[l.adapterId];
      var w1 := w;
      if RetiringCall(adapter).Some? {
        CallKeeps(w, l.adapterId, RetiringCall(adapter).value, leases, mark);
        w1 := Call(w, l.adapterId, RetiringCall(adapter).value).0;
      }
      if adapter.cleansSessionState { CallKeeps(w1, l.adapterId, CleanupSessionState, leases, mark); }
    }
  }

  lemma {:induction false} CleanAllKeeps(w: World, todo: seq<Lease>, leases: seq<Lease>, mark: nat)
    requires Sound(w, leases, mark)
    ensures Sound(CleanAll(w, todo).0, leases, mark)
    ensures Beside(w, CleanAll(w, todo).0)
    decreases |todo|
  {
    hide Sound, CleanAdapter;
    if todo != [] {
      CleanAdapterKeeps(w, todo[0], leases, mark);
      CleanAllKeeps(CleanAdapter(w, todo[0]).0, todo[1..], leases, mark);
    }
  }

  // ---- The record ----

  /** A patch replaces the identity and, if it carries one, the status; against a terminal status it changes nothing. */
  lemma TerminalStatusIsKept(r: Record, p: Patch)
    ensures
      var status := if p.status == None then r.status else p.status.value;
      Merge(r, p) ==
        if (r.status == Finished || r.status == Cancelled) && status != r.status then r
        else Record(p.agentName, p.agentSessionId, p.firstAgent, p.promptCount, p.history, status)
  {
  }

  /** Like `Beside`, but the transaction itself may have written the record. */
  predicate BesideRecord(w: World, w': World) {
    && Later(w, w')
    && w'.session.runtime == w.session.runtime
    && w'.session.promptCount >= w.session.promptCount
    && (Live(w') ==> w'.session.actionsSuspended == w.session.actionsSuspended)
  }

  /**
   * A patch that returns normally for a session that is still live is in the record; one
   * for a session that is gone never touches it.
   */
  lemma PatchKeeps(w: World, p: Patch, leases: seq<Lease>, mark: nat, done: seq<Lease>)
    requires Sound(w, leases, mark) && Among(done, leases) && AllBridged(w, done)
    requires p.status.None? || !Live(w)
    ensures var (w', ok) := PatchRecord(w, p);
      && Sound(w', leases, mark)
      && AllBridged(w', done)
      && BesideRecord(w, w')
      && w'.record.Some? == w.record.Some?
      && (ok && Live(w') && w.record.Some? ==>
            w'.record == Some(Record(p.agentName, p.agentSessionId, p.firstAgent, p.promptCount, p.history,
                                     w.record.value.status)))
      && (!Live(w) ==> w'.record == w.record)
  {
    hide LogSound, ReboundSince, HasGone, Current, Generation, Pause;
    PauseKeeps(w, leases, mark, done);
    var w1 := Pause(w);
    if Live(w1) && w1.record.Some? {
      assert p.status.None? ==>
        Merge(w1.record.value, p) == Record(p.agentName, p.agentSessionId, p.firstAgent, p.promptCount, p.history,
                                            w1.record.value.status);
      hide Merge;
      var written := Next(w1).ok || Next(w1).wrote;
      var w2 := w1.(record := if written then Some(Merge(w1.record.value, p)) else w1.record);
      assert Sound(w2, leases, mark) && AllBridged(w2, done);
      PauseKeeps(w2, leases, mark, done);
    }
  }

  // ---- Processes ----

  lemma SpawnKeeps(w: World, resumed: bool, leases: seq<Lease>, mark: nat)
    requires Sound(w, leases, mark)
    ensures var (w', made) := Spawn(w, resumed);
      && Sound(w', leases, mark)
      && Beside(w, w')
      && (made.Created? ==> !w'.session.terminating && made.resumed == resumed)
  {
    hide Sound, Pause;
    PauseKeeps(w, leases, mark, []);
  }

  lemma SpawnFreshKeeps(w: World, leases: seq<Lease>, mark: nat)
    requires Sound(w, leases, mark)
    ensures var (w', made) := SpawnFresh(w);
      && Sound(w', leases, mark)
      && Beside(w, w')
      && (made.Created? ==> !w'.session.terminating && !made.resumed)
  {
    hide Sound, Pause, Spawn;
    PauseKeeps(w, leases, mark, []);
    PauseKeeps(Pause(w), leases, mark, []);
    SpawnKeeps(BuildContext(w).0, false, leases, mark);
  }

  lemma CreateReplacementKeeps(w: World, canResume: bool, leases: seq<Lease>, mark: nat)
    requires Sound(w, leases, mark)
    ensures var (w', made) := CreateReplacement(w, canResume);
      && Sound(w', leases, mark)
      && Beside(w, w')
      && (made.Created? ==> !w'.session.terminating && (made.resumed ==> canResume))
  {
    hide Sound, Spawn, SpawnFresh;
    SpawnKeeps(w, true, leases, mark);
    SpawnFreshKeeps(if canResume then Spawn(w, true).0 else w, leases, mark);
  }

  lemma RecreatePreviousKeeps(w: World, leases: seq<Lease>, mark: nat)
    requires Sound(w, leases, mark)
    ensures var (w', made) := RecreatePrevious(w);
      && Sound(w', leases, mark)
      && Beside(w, w')
      && (made.Created? ==> !w'.session.terminating)
  {
    hide Sound, Spawn;
    SpawnKeeps(w, true, leases, mark);
    SpawnKeeps(Spawn(w, true).0, false, leases, mark);
  }

  /** Everything but whether the process runs is as other code leaves it. */
  predicate BesideProcess(w: World, w': World) {
    && Later(w, w')
    && w'.session.runtime.(running := w.session.runtime.running) == w.session.runtime
    && w'.session.promptCount >= w.session.promptCount
    && w'.record == w.record
    && (Live(w') ==> w'.session.actionsSuspended == w.session.actionsSuspended)
  }

  lemma DestroyAgentKeeps(w: World, leases: seq<Lease>, mark: nat)
    requires Sound(w, leases, mark)
    ensures Sound(DestroyAgent(w).0, leases, mark)
    ensures BesideProcess(w, DestroyAgent(w).0)
  {
    hide LogSound, ReboundSince, HasGone, Current, Generation, Pause;
    PauseKeeps(w, leases, mark, []);
  }

  // ---- Replacing the agent ----

  /**
   * `switchAgent` either installs the new agent, or, if the session is still live, leaves
   * the old identity with a switch history that is already one entry longer.
   */
  lemma SwitchAgentKeeps(w: World, toAgent: string, canResume: bool, leases: seq<Lease>, mark: nat)
    requires Sound(w, leases, mark) && Live(w) && toAgent != w.session.runtime.agentName
    ensures var (w', made) := SwitchAgent(w, toAgent, canResume);
      var r, r' := w.session.runtime, w'.session.runtime;
      && Sound(w', leases, mark)
      && Later(w, w')
      && w'.record == w.record
      && r'.firstAgent == r.firstAgent
      && r'.history == r.history + [HistoryEntry(r.agentName, r.agentSessionId, w.session.promptCount)]
      && (made.Created? ==>
            && r'.agentName == toAgent && r'.agentSessionId == made.id && r'.running
            && w'.session.promptCount == 0
            && (made.resumed ==> canResume))
      && (made.NotCreated? ==> r'.agentName == r.agentName && r'.agentSessionId == r.agentSessionId)
  {
    hide LogSound, ReboundSince, HasGone, Current, Generation, DestroyAgent, CreateReplacement;
    var w0 := PushHistory(Suspend(w));
    assert Sound(w0, leases, mark);
    DestroyAgentKeeps(w0, leases, mark);
    CreateReplacementKeeps(DestroyAgent(w0).0, canResume, leases, mark);
  }

  /** `restoreAgentAfterFailedSwitch` undoes the entry that `switchAgent` pushed. */
  lemma RestoreAgentKeeps(w: World, fromAgent: string, leases: seq<Lease>, mark: nat,
                          history: seq<HistoryEntry>, entry: HistoryEntry)
    requires Sound(w, leases, mark)
    requires w.session.runtime.history == history + [entry] && entry.agentName == fromAgent
    ensures var (w', restored) := RestoreAgent(w, fromAgent);
      var r, r' := w.session.runtime, w'.session.runtime;
      && Sound(w', leases, mark)
      && Later(w, w')
      && w'.record == w.record
      && r'.firstAgent == r.firstAgent
      && (restored ==>
            && r'.agentName == fromAgent && r'.running
            && r'.history == history
            && w'.session.promptCount == entry.promptCount)
  {
    hide LogSound, ReboundSince, HasGone, Current, Generation, DestroyAgent, RecreatePrevious;
    DestroyAgentKeeps(w, leases, mark);
    RecreatePreviousKeeps(DestroyAgent(w).0, leases, mark);
    assert (history + [entry])[..|history|] == history;
  }
}
