/**
 * What a whole agent switch guarantees, for every pattern of failures and for
 * everything that may run beside it.
 */
module AgentSwitchTheorems {
  import opened Wrappers
  import opened AgentSwitch
  import opened AgentSwitchInvariant
  import opened AgentSwitchSteps

  /** The record, if there is one, names the agent that runs. */
  predicate Agrees(w: World) {
    var r := w.session.runtime;
    w.record.Some? ==>
      && w.record.value.agentName == r.agentName
      && w.record.value.agentSessionId == r.agentSessionId
      && w.record.value.firstAgent == r.firstAgent
      && w.record.value.history == r.history
  }

  /** The state a switch starts from: record and runtime agree, and a terminating session has no bridge and shows no actions. */
  predicate Coherent(w: World) {
    Agrees(w) && (w.session.terminating ==> w.bridges == {} && w.session.actionsSuspended)
  }

  /** The runtime before and after that switch and record agree on `agentName` and on the rest of the identity. */
  predicate RunsOn(w: World, agentName: string, firstAgent: string, history: seq<HistoryEntry>) {
    var r := w.session.runtime;
    && r.agentName == agentName
    && r.firstAgent == firstAgent
    && r.history == history
    && Agrees(w)
  }

  predicate RecordCounts(w: World, promptCount: nat) {
    w.record.Some? ==> w.record.value.promptCount == promptCount
  }

  // ---- The phases ----

  /** Where a commit leaves the world: done, or with a longer history that the rollback takes back. */
  lemma CommitKeeps(w: World, plan: Plan, mark: nat)
    requires Sound(w, plan.leases, mark) && Agrees(w)
    requires plan.toAgent != w.session.runtime.agentName
    ensures var (w', made) := Commit(w, plan);
      var r, r' := w.session.runtime, w'.session.runtime;
      var entry := HistoryEntry(r.agentName, r.agentSessionId, w.session.promptCount);
      && Sound(w', plan.leases, mark)
      && Later(w, w')
      && w'.record.Some? == w.record.Some?
      && (Live(w') ==> r'.firstAgent == r.firstAgent && r'.history == r.history + [entry])
      && (w'.record != w.record && plan.hadBridges ==> AllBridged(w', plan.leases))
      && (made.Created? ==>
            && Live(w') && r'.running && !w'.session.actionsSuspended
            && RunsOn(w', plan.toAgent, r.firstAgent, r.history + [entry])
            && RecordCounts(w', 0)
            && (plan.hadBridges ==> AllBridged(w', plan.leases))
            && (made.resumed ==> plan.canResume))
  {
    hide Sound, AllBridged, SwitchAgent, ReconnectIf, PatchRecord;
    if Live(w) {
      SwitchAgentKeeps(w, plan.toAgent, plan.canResume, plan.leases, mark);
      var (w1, made) := SwitchAgent(w, plan.toAgent, plan.canResume);
      if made.Created? && Live(w1) {
        ReconnectIfKeeps(w1, plan, mark);
        var (w2, bridged) := ReconnectIf(w1, plan);
        if bridged && Live(w2) {
          var done := if plan.hadBridges then plan.leases else [];
          NothingToBridge(w2);
          PatchKeeps(w2, CommitPatch(w2, plan), plan.leases, mark, done);
          var w3 := PatchRecord(w2, CommitPatch(w2, plan)).0;
          if Live(w3) { ResumeKeeps(w3, plan.leases, mark, done); }
        }
      }
    }
  }

  lemma NothingToBridge(w: World)
    ensures AllBridged(w, [])
  {
  }

  lemma ResumeKeeps(w: World, leases: seq<Lease>, mark: nat, done: seq<Lease>)
    requires Sound(w, leases, mark) && AllBridged(w, done) && Live(w)
    ensures Sound(Resume(w), leases, mark) && AllBridged(Resume(w), done)
  {
    hide LogSound, ReboundSince, HasGone, Current, Generation;
  }

  /** A completed rollback restores the old agent, its history and the record's prompt count. */
  lemma RollbackKeeps(w: World, plan: Plan, saved: Saved, mark: nat, entry: HistoryEntry)
    requires Sound(w, plan.leases, mark)
    requires w.session.runtime.firstAgent == saved.firstAgent
    requires w.session.runtime.history == saved.history + [entry]
    requires entry.agentName == plan.fromAgent && entry.promptCount == saved.promptCount
    ensures var (w', restored) := Rollback(w, plan, saved);
      && Sound(w', plan.leases, mark)
      && Later(w, w')
      && w'.record.Some? == w.record.Some?
      && (restored ==>
            && w'.session.runtime.running
            && RunsOn(w', plan.fromAgent, saved.firstAgent, saved.history)
            && RecordCounts(w', saved.promptCount)
            && w'.session.promptCount >= saved.promptCount
            && (Live(w') ==> !w'.session.actionsSuspended)
            && (plan.hadBridges ==> AllBridged(w', plan.leases)))
  {
    var w0 := Disconnect(w);
    assert Sound(w0, plan.leases, mark) by { hide LogSound, ReboundSince, HasGone, Current, Generation; }
    hide Sound, AllBridged, RestoreAgent, ReconnectIf, PatchRecord;
    RestoreAgentKeeps(w0, plan.fromAgent, plan.leases, mark, saved.history, entry);
    var (w1, restored) := RestoreAgent(w0, plan.fromAgent);
    if restored && Live(w1) {
      NothingToBridge(w1);
      PatchKeeps(w1, RollbackPatch(w1, plan, saved), plan.leases, mark, []);
      var (w2, written) := PatchRecord(w1, RollbackPatch(w1, plan, saved));
      if written && Live(w2) {
        ResumeKeeps(w2, plan.leases, mark, []);
        ReconnectIfKeeps(Resume(w2), plan, mark);
      }
    }
  }

  lemma DestroySessionKeeps(w: World, leases: seq<Lease>, mark: nat)
    requires Sound(w, leases, mark) && w.bridges == {}
    ensures var w' := DestroySession(w);
      && Sound(w', leases, mark) && Later(w, w') && !Live(w') && w'.record == w.record
      && w'.session.terminating
  {
    hide LogSound, ReboundSince, HasGone, Current, Generation, Pause;
    LogGrows(w.log, leases, mark, Gone);
    var w1 := NoteGone(w).(session := w.session.(terminating := true, actionsSuspended := true));
    assert Sound(w1, leases, mark);
    PauseKeeps(w1, leases, mark, []);
  }

  /**
   * After a double failure the session is failed, terminated and without a bridge.  The
   * record is left as it was: by the time the failure is written the session is gone.
   */
  lemma GiveUpKeeps(w: World, leases: seq<Lease>, mark: nat)
    requires Sound(w, leases, mark)
    ensures var (w', outcome) := GiveUp(w);
      && Sound(w', leases, mark)
      && Later(w, w')
      && w'.record == w.record
      && (outcome == (if !Live(w) then Terminated
                      else if IsTerminal(w.session.status) then FailRejected else RollbackFailed))
      && (outcome.RollbackFailed? ==> w'.session.status.Error? && w'.session.terminating)
      && (!outcome.RollbackFailed? ==> w' == w)
  {
    hide LogSound, ReboundSince, HasGone, Current, Generation, DestroySession, PatchRecord;
    if Live(w) && CanFail(w.session) {
      var w0 := Disconnect(Fail(w));
      assert Sound(w0, leases, mark);
      DestroySessionKeeps(w0, leases, mark);
      PatchKeeps(DestroySession(w0), FailurePatch(DestroySession(w0)), leases, mark, []);
    }
  }

  /** How a switch that went as far as replacing the agent may end. */
  predicate EndsWell(w: World, plan: Plan, w': World, outcome: Outcome) {
    var r := w.session.runtime;
    var entry := HistoryEntry(r.agentName, r.agentSessionId, w.session.promptCount);
    match outcome
    case Switched(resumed) =>
      && Live(w') && w'.session.runtime.running && !w'.session.actionsSuspended
      && RunsOn(w', plan.toAgent, r.firstAgent, r.history + [entry])
      && RecordCounts(w', 0)
      && (plan.hadBridges ==> AllBridged(w', plan.leases))
      && (resumed ==> plan.canResume)
    case RolledBack =>
      && w'.session.runtime.running && (Live(w') ==> !w'.session.actionsSuspended)
      && RunsOn(w', plan.fromAgent, r.firstAgent, r.history)
      && RecordCounts(w', w.session.promptCount)
      && w'.session.promptCount >= w.session.promptCount
      && (plan.hadBridges ==> AllBridged(w', plan.leases))
    case RollbackFailed => w'.session.status.Error? && w'.session.terminating && w'.bridges == {}
    case FailRejected => Live(w') && IsTerminal(w'.session.status)
    case Terminated => !Live(w')
    case _ => false
  }

  lemma GiveUpEndsWell(before: World, w: World, plan: Plan, mark: nat)
    requires Sound(w, plan.leases, mark)
    ensures var (w', outcome) := GiveUp(w);
      Sound(w', plan.leases, mark) && Later(w, w') && EndsWell(before, plan, w', outcome)
  {
    GiveUpKeeps(w, plan.leases, mark);
    hide LogSound, ReboundSince, HasGone, Current, Generation, GiveUp, RunsOn, RecordCounts, AllBridged;
  }

  lemma RecoverKeeps(before: World, w: World, plan: Plan, mark: nat)
    requires Sound(w, plan.leases, mark)
    requires plan.fromAgent == before.session.runtime.agentName
    requires
      var r := before.session.runtime;
      Live(w) ==>
        && w.session.runtime.firstAgent == r.firstAgent
        && w.session.runtime.history
           == r.history + [HistoryEntry(r.agentName, r.agentSessionId, before.session.promptCount)]
    ensures var (w', outcome) := Recover(w, plan, SaveIdentity(before));
      Sound(w', plan.leases, mark) && Later(w, w') && EndsWell(before, plan, w', outcome)
  {
    if Live(w) {
      var r, saved := before.session.runtime, SaveIdentity(before);
      var entry := HistoryEntry(r.agentName, r.agentSessionId, before.session.promptCount);
      NoteKeepsSound(w, plan.leases, mark, Failed);
      hide LogSound, ReboundSince, HasGone, Current, Generation, Rollback, GiveUp;
      RollbackKeeps(Note(w, Failed), plan, saved, mark, entry);
      var (w1, restored) := Rollback(Note(w, Failed), plan, saved);
      if !restored {
        GiveUpEndsWell(before, w1, plan, mark);
        hide Sound, EndsWell, Later;
        LaterTwice(w, Note(w, Failed), w1);
        LaterTwice(w, w1, GiveUp(w1).0);
      } else {
        hide Sound, AllBridged;
      }
    }
  }

  lemma LaterTwice(a: World, b: World, c: World)
    requires (b == Note(a, Failed) || Later(a, b)) && Later(b, c)
    ensures Later(a, c)
  {
  }

  lemma ExecuteKeeps(w: World, plan: Plan, mark: nat)
    requires Sound(w, plan.leases, mark) && Agrees(w)
    requires plan.fromAgent == w.session.runtime.agentName != plan.toAgent
    ensures var (w', outcome) := Execute(w, plan);
      Sound(w', plan.leases, mark) && Later(w, w') && EndsWell(w, plan, w', outcome)
  {
    CommitKeeps(w, plan, mark);
    var (w1, made) := Commit(w, plan);
    if made.Created? {
      NoteKeepsSound(w1, plan.leases, mark, Succeeded(made.resumed));
      hide Sound, Current, Generation, Commit;
    } else {
      hide Sound, AllBridged, Commit, Recover;
      RecoverKeeps(w, w1, plan, mark);
    }
  }

  // ---- Capture ----

  lemma {:induction false} LeasesOfCovers(b: Bindings, ids: seq<string>)
    requires forall x :: x in ids ==> x in b.attached
    ensures match LeasesOf(b, ids)
      case None => exists x :: x in ids && ThreadOf(b, x).None?
      case Some(ls) =>
        && |ls| == |ids|
        && forall i :: 0 <= i < |ls| ==>
             && ls[i].adapterId == ids[i]
             && Current(b, ls[i])
             && ls[i].generation == Generation(b, ids[i])
  {
    if ids != [] {
      LeasesOfCovers(b, ids[1..]);
    }
  }

  /** The capture takes one current lease for every attached adapter, unless one of them has no thread. */
  lemma CaptureCovers(b: Bindings)
    ensures match CaptureLeases(b)
      case None => exists a :: a in b.attached && ThreadOf(b, a).None?
      case Some(ls) =>
        && (forall l :: l in ls ==> Current(b, l))
        && (forall a :: a in b.attached ==> exists l :: l in ls && l.adapterId == a)
        && (forall i, j :: 0 <= i < j < |ls| ==> ls[i].adapterId != ls[j].adapterId)
        && (forall a :: a in b.attached ==> ThreadOf(b, a).Some?)
  {
    var ids := Distinct(b.attached);
    LeasesOfCovers(b, ids);
    if LeasesOf(b, ids).Some? {
      var ls := LeasesOf(b, ids).value;
      forall a | a in b.attached ensures ThreadOf(b, a).Some? && exists l :: l in ls && l.adapterId == a {
        var i :| 0 <= i < |ids| && ids[i] == a;
        assert ls[i] in ls && Current(b, ls[i]);
      }
    }
  }

  lemma CaptureKeeps(w: World, leases: seq<Lease>)
    requires Sound(w, [], 0) && CaptureLeases(w.session.bindings) == Some(leases)
    ensures
      var noted := Note(Note(w, Starting), Captured(leases, w.bridges != {}));
      Sound(Suspend(Disconnect(noted)), leases, |w.log| + 2)
  {
    LeasesOfCovers(w.session.bindings, Distinct(w.session.bindings.attached));
    NoteKeepsSound(w, [], 0, Starting);
    var log := w.log + [Starting];
    var e := Captured(leases, w.bridges != {});
    assert LogSound(log + [e], leases, |log| + 1) by {
      assert forall i :: 0 <= i < |log| ==> !log[i].Captured?;
    }
    assert HasGone(log + [e]) <==> HasGone(log) by {
      if HasGone(log) {
        var i :| 0 <= i < |log| && log[i].Gone?;
        assert (log + [e])[i].Gone?;
      }
    }
  }

  // ---- The whole switch ----

  /** How a switch may end, outcome by outcome. */
  ghost predicate Concludes(w: World, toAgent: string, w': World, outcome: Outcome) {
    StatusKept(w, w') &&
    var r := w.session.runtime;
    match outcome
    case Switched(resumed) =>
      && Live(w') && w'.session.runtime.running && !w'.session.actionsSuspended
      && RecordCounts(w', 0)
      && (exists count: nat :: w.session.promptCount <= count &&
            RunsOn(w', toAgent, r.firstAgent, r.history + [HistoryEntry(r.agentName, r.agentSessionId, count)]))
      && (resumed ==> HasEntry(r.history, toAgent) && toAgent in w.resumable)
    case RolledBack =>
      && w'.session.runtime.running && (Live(w') ==> !w'.session.actionsSuspended)
      && RunsOn(w', r.agentName, r.firstAgent, r.history)
      && (exists count: nat :: w.session.promptCount <= count <= w'.session.promptCount && RecordCounts(w', count))
    case RollbackFailed => w'.session.status.Error? && w'.session.terminating && w'.bridges == {}
    case FailRejected => Live(w') && IsTerminal(w'.session.status)
    case Terminated => !Live(w')
    case InProgress => w' == w
    case _ =>
      && w'.session.runtime == r && w'.record == w.record
      && (outcome.CleanupFailed? && Live(w') ==> !w'.session.actionsSuspended)
  }

  /** What the events of one switch say together; `leases` are the ones it captured. */
  predicate Chronicle(w': World, outcome: Outcome, leases: seq<Lease>, mark: nat) {
    && mark <= |w'.log|
    && (HasGone(w'.log) <==> !Live(w'))
    && NeverRebridged(w'.log, mark)
    && CapturedOnce(w'.log, leases, mark)
    && NoOverlap(w'.log)
    && (w'.session.terminating ==> w'.bridges == {} && w'.session.actionsSuspended)
    && (if outcome.CleanupFailed? then
          && w'.log != [] && w'.log[|w'.log| - 1].Failed?
          && StopsWhenGone(w'.log[..|w'.log| - 1])
        else StopsWhenGone(w'.log))
    && (outcome.Switched? || outcome.RolledBack? ==>
          0 < mark && w'.log[mark - 1].Captured?
          && (w'.log[mark - 1].hadBridges ==> AllBridged(w', leases)))
  }

  /** A failed cleanup can only end with a session that is gone when there were bridges to bring back. */
  predicate EndsLateOnlyBridged(w': World, outcome: Outcome, mark: nat) {
    outcome.CleanupFailed? ==>
      && 0 < mark <= |w'.log| && w'.log[mark - 1].Captured?
      && (!w'.log[mark - 1].hadBridges ==> Live(w'))
  }

  lemma FailureGrows(log: seq<Event>, leases: seq<Lease>, mark: nat)
    requires LogSound(log, leases, mark)
    ensures var log' := log + [Failed];
      && (HasGone(log') <==> HasGone(log))
      && NeverRebridged(log', mark)
      && CapturedOnce(log', leases, mark)
      && NoOverlap(log')
  {
    var log' := log + [Failed];
    if HasGone(log) {
      var i :| 0 <= i < |log| && log[i].Gone?;
      assert log'[i].Gone?;
    }
    hide StopsWhenGone;
  }

  lemma FailureChronicle(w: World, leases: seq<Lease>, mark: nat)
    requires Sound(w, leases, mark)
    ensures Chronicle(Note(w, Failed), CleanupFailed, leases, mark)
  {
    FailureGrows(w.log, leases, mark);
    assert (w.log + [Failed])[..|w.log|] == w.log;
    hide Tracked, AllBridged, HasGone, NeverRebridged, CapturedOnce, NoOverlap, StopsWhenGone;
  }

  lemma AbandonKeeps(w: World, plan: Plan, mark: nat)
    requires Sound(w, plan.leases, mark) && Live(w)
    ensures var (w', outcome) := AbandonCleanup(w, plan);
      && w'.session.runtime == w.session.runtime && w'.record == w.record
      && (Live(w') ==> !w'.session.actionsSuspended)
      && Chronicle(w', outcome, plan.leases, mark)
      && w.log <= w'.log
      && (!plan.hadBridges ==> Live(w'))
  {
    hide Sound, Reconnect, Chronicle;
    ResumeKeeps(w, plan.leases, mark, []);
    ReconnectIfKeeps(Resume(w), plan, mark);
    FailureChronicle(ReconnectIf(Resume(w), plan).0, plan.leases, mark);
  }

  lemma ExecuteConcludes(w: World, w1: World, toAgent: string, plan: Plan, mark: nat, w': World, outcome: Outcome)
    requires w1.session.runtime == w.session.runtime && w.session.promptCount <= w1.session.promptCount
    requires EndsWell(w1, plan, w', outcome)
    requires plan.toAgent == toAgent && plan.fromAgent == w.session.runtime.agentName
    requires plan.canResume ==> HasEntry(w.session.runtime.history, toAgent) && toAgent in w.resumable
    requires Sound(w', plan.leases, mark) && StatusKept(w, w')
    requires 0 < mark && w'.log[mark - 1] == Captured(plan.leases, plan.hadBridges)
    ensures Concludes(w, toAgent, w', outcome)
    ensures Chronicle(w', outcome, plan.leases, mark)
  {
    hide HasEntry, Agrees, StopsWhenGone, NeverRebridged, CapturedOnce, NoOverlap, HasGone, AllBridged, Tracked, IsTerminal;
    assert Chronicle(w', outcome, plan.leases, mark);
    match outcome {
      case Switched(_) =>
        var r := w.session.runtime;
        assert RunsOn(w', toAgent, r.firstAgent,
          r.history + [HistoryEntry(r.agentName, r.agentSessionId, w1.session.promptCount)]);
      case RolledBack => assert RecordCounts(w', w1.session.promptCount);
      case _ =>
    }
  }

  lemma ProceedKeeps(w: World, toAgent: string) returns (leases: seq<Lease>, mark: nat)
    requires Sound(w, [], 0) && Live(w) && Agrees(w) && toAgent != w.session.runtime.agentName
    ensures var (w', outcome) := Proceed(w, toAgent);
      Concludes(w, toAgent, w', outcome) && Chronicle(w', outcome, leases, mark)
    ensures EndsLateOnlyBridged(Proceed(w, toAgent).0, Proceed(w, toAgent).1, mark)
  {
    match CaptureLeases(w.session.bindings) {
      case None =>
        leases, mark := [], 0;
        NoteKeepsSound(w, [], 0, Starting);
      case Some(ls) =>
        leases, mark := ls, |w.log| + 2;
        CaptureKeeps(w, ls);
        var plan, w1, errors := Prepare(w, toAgent, ls);
        hide Sound, CleanAll, AbandonCleanup, Execute, AllBridged, HasEntry;
        if Live(w1) && errors > 0 {
          AbandonKeeps(w1, plan, mark);
        } else if Live(w1) {
          ExecuteKeeps(w1, plan, mark);
          var (w', outcome) := Execute(w1, plan);
          ExecuteConcludes(w, w1, toAgent, plan, mark, w', outcome);
        } else {
          TerminatedChronicle(w1, ls, mark);
        }
    }
  }

  lemma TerminatedChronicle(w: World, leases: seq<Lease>, mark: nat)
    requires Sound(w, leases, mark)
    ensures Chronicle(w, Terminated, leases, mark)
  {
  }

  /** The switch up to the end of the cleanup. */
  lemma Prepare(w: World, toAgent: string, ls: seq<Lease>) returns (plan: Plan, w1: World, errors: nat)
    requires Sound(w, [], 0) && CaptureLeases(w.session.bindings) == Some(ls)
    ensures
      var r := w.session.runtime;
      var noted := Note(Note(w, Starting), Captured(ls, w.bridges != {}));
      && plan == Plan(toAgent, r.agentName, HasEntry(r.history, toAgent) && toAgent in w.resumable, ls,
                      w.bridges != {})
      && (w1, errors) == CleanAll(Suspend(Disconnect(noted)), ls)
      && Sound(w1, ls, |w.log| + 2)
      && w1.session.runtime == r && w1.record == w.record && w.session.promptCount <= w1.session.promptCount
      && w1.log[|w.log| + 1] == Captured(ls, w.bridges != {})
      && Later(w, w1)
  {
    var r := w.session.runtime;
    var noted := Note(Note(w, Starting), Captured(ls, w.bridges != {}));
    plan := Plan(toAgent, r.agentName, HasEntry(r.history, toAgent) && toAgent in w.resumable, ls, w.bridges != {});
    var result := CleanAll(Suspend(Disconnect(noted)), ls);
    w1, errors := result.0, result.1;
    CaptureKeeps(w, ls);
    hide Sound, CleanAll, HasEntry, CaptureLeases;
    CleanAllKeeps(Suspend(Disconnect(noted)), ls, ls, |w.log| + 2);
    assert noted.log[|w.log| + 1] == Captured(ls, w.bridges != {});
  }

  lemma BeginSound(w: World)
    requires Coherent(w)
    ensures Sound(Begin(w), [], 0)
  {
    if !Live(w) { assert Begin(w).log[0].Gone?; }
  }

  lemma ConcludesFromLater(w: World, w1: World, toAgent: string, w': World, outcome: Outcome)
    requires Beside(w, w1) && Concludes(w1, toAgent, w', outcome) && !outcome.InProgress?
    ensures Concludes(w, toAgent, w', outcome)
  {
    hide HasEntry, RunsOn, RecordCounts, IsTerminal;
  }

  lemma DoSwitchKeeps(w: World, toAgent: string) returns (leases: seq<Lease>, mark: nat)
    requires Sound(w, [], 0) && Agrees(w)
    ensures var (w', outcome) := DoSwitch(w, toAgent);
      && Concludes(w, toAgent, w', outcome)
      && Chronicle(w', outcome, leases, mark)
      && !outcome.InProgress?
    ensures EndsLateOnlyBridged(DoSwitch(w, toAgent).0, DoSwitch(w, toAgent).1, mark)
  {
    leases, mark := [], 0;
    if w.registered && toAgent in w.installed && toAgent != w.session.runtime.agentName {
      var w1 := if w.hasMiddleware then Pause(w) else w;
      PauseKeeps(w, [], 0, []);
      assert Sound(w1, [], 0) && Beside(w, w1);
      if Live(w1) && (w.hasMiddleware ==> Next(w).ok) {
        leases, mark := ProceedKeeps(w1, toAgent);
        var (w', outcome) := Proceed(w1, toAgent);
        ProceedNeverInProgress(w1, toAgent);
        ConcludesFromLater(w, w1, toAgent, w', outcome);
        assert DoSwitch(w, toAgent) == (w', outcome) by { hide Proceed, Pause, Sound, Concludes, Chronicle; }
        hide *;
      } else {
        hide Pause;
      }
    }
  }

  lemma ProceedNeverInProgress(w: World, toAgent: string)
    ensures !Proceed(w, toAgent).1.InProgress?
  {
    hide CaptureLeases, CleanAll, Commit, Rollback;
  }

  /** Facts about a finished switch, with the leases it captured and where its log says so. */
  lemma SwitchKeeps(w: World, toAgent: string) returns (leases: seq<Lease>, mark: nat)
    requires Coherent(w) && !w.switching
    ensures var (w', outcome) := Switch(w, toAgent);
      && Concludes(w, toAgent, w', outcome)
      && Chronicle(w', outcome, leases, mark)
    ensures EndsLateOnlyBridged(Switch(w, toAgent).0, Switch(w, toAgent).1, mark)
  {
    BeginSound(w);
    leases, mark := DoSwitchKeeps(Begin(w), toAgent);
    var (w1, outcome) := DoSwitch(Begin(w), toAgent);
    hide DoSwitch, HasGone, Current, StopsWhenGone, NeverRebridged, CapturedOnce, NoOverlap, Concludes;
    ConcludesUnlocked(w, w1, toAgent, outcome);
  }

  /** Releasing the lock changes nothing that the outcome speaks of. */
  lemma ConcludesUnlocked(w: World, w1: World, toAgent: string, outcome: Outcome)
    requires Concludes(Begin(w), toAgent, w1, outcome) && !outcome.InProgress?
    ensures Concludes(w, toAgent, w1.(switching := false), outcome)
  {
    hide HasEntry, IsTerminal;
    var w' := w1.(switching := false);
    match outcome {
      case Switched(_) =>
        var r := w.session.runtime;
        var count: nat :| w.session.promptCount <= count
          && RunsOn(w1, toAgent, r.firstAgent,
                    r.history + [HistoryEntry(r.agentName, r.agentSessionId, count)]);
        assert RunsOn(w', toAgent, r.firstAgent,
                      r.history + [HistoryEntry(r.agentName, r.agentSessionId, count)]);
      case RolledBack =>
        var count: nat :| w.session.promptCount <= count <= w1.session.promptCount && RecordCounts(w1, count);
        assert RecordCounts(w', count);
      case _ =>
    }
  }

  /**
   * A switch that leaves the session live leaves runtime and record both naming the new
   * agent, with the old one added to the history, or both naming the old agent, with its
   * history and first agent.  Otherwise the session is gone, or failed with no bridge.  The
   * one exception is a session that finished meanwhile: `session.fail` then throws.
   */
  lemma ThreeOutcomes(w: World, toAgent: string)
    requires Coherent(w) && !w.switching
    ensures var (w', outcome) := Switch(w, toAgent);
      && Concludes(w, toAgent, w', outcome)
      && (Live(w') && !outcome.FailRejected? ==>
            if outcome.Switched? then
              exists count: nat ::
                RunsOn(w', toAgent, w.session.runtime.firstAgent,
                       w.session.runtime.history
                       + [HistoryEntry(w.session.runtime.agentName, w.session.runtime.agentSessionId, count)])
            else
              RunsOn(w', w.session.runtime.agentName, w.session.runtime.firstAgent, w.session.runtime.history))
  {
    var _, _ := SwitchKeeps(w, toAgent);
    hide Switch, HasEntry, RecordCounts, IsTerminal;
  }

  /** A failure announced after the end. */
  predicate FailedAfterGone(log: seq<Event>) {
    exists i, j :: 0 <= i < j < |log| && log[i].Gone? && log[j].Failed?
  }

  predicate BridgesStop(log: seq<Event>) {
    forall i, j :: 0 <= i < j < |log| && log[i].Gone? ==> !log[j].Connected? && !log[j].Succeeded?
  }

  lemma NothingLast(log: seq<Event>)
    requires StopsWhenGone(log)
    ensures BridgesStop(log) && !FailedAfterGone(log)
  {
  }

  lemma FailedLast(log: seq<Event>)
    requires log != [] && log[|log| - 1].Failed? && StopsWhenGone(log[..|log| - 1])
    ensures BridgesStop(log)
    ensures FailedAfterGone(log) <==> HasGone(log)
  {
    var before := log[..|log| - 1];
    forall i, j | 0 <= i < j < |log| && log[i].Gone? ensures !log[j].Connected? && !log[j].Succeeded? {
      if j < |log| - 1 { assert before[i].Gone? && before[j] == log[j]; }
    }
    if HasGone(log) {
      var i :| 0 <= i < |log| && log[i].Gone?;
      assert log[i].Gone? && log[|log| - 1].Failed?;
    }
  }

  /**
   * Once the session is gone nothing is bridged and no success announced; when it terminated,
   * no bridge is left and no action is shown.  A failure is announced after the end in exactly one case: the session
   * ended inside a `connect` call while the old state was published again after a failed
   * cleanup, a stretch the handler does not guard.
   */
  lemma NothingAfterTheEnd(w: World, toAgent: string)
    requires Coherent(w) && !w.switching
    ensures var (w', outcome) := Switch(w, toAgent);
      && (HasGone(w'.log) <==> !Live(w'))
      && BridgesStop(w'.log)
      && (w'.session.terminating ==> w'.bridges == {} && w'.session.actionsSuspended)
      && (FailedAfterGone(w'.log) <==> outcome.CleanupFailed? && !Live(w'))
      && (FailedAfterGone(w'.log) ==> exists c :: 0 <= c < |w'.log| && w'.log[c].Captured? && w'.log[c].hadBridges)
  {
    var _, mark := SwitchKeeps(w, toAgent);
    var (w', outcome) := Switch(w, toAgent);
    hide Switch, Concludes, NeverRebridged, CapturedOnce, NoOverlap, AllBridged, BridgesStop, FailedAfterGone,
      StopsWhenGone, HasGone;
    if outcome.CleanupFailed? { FailedLast(w'.log); } else { NothingLast(w'.log); }
  }

  /** An adapter whose binding changed after the capture is never bridged again by this switch. */
  lemma StaleLeasesStayUnbridged(w: World, toAgent: string)
    requires Coherent(w) && !w.switching
    ensures var log := Switch(w, toAgent).0.log;
      forall c, i, j :: 0 <= c < i < j < |log| && log[c].Captured? && log[i].Rebound? && log[j].Connected? ==>
        log[i].adapterId != log[j].adapterId
  {
    var leases, mark := SwitchKeeps(w, toAgent);
    var (w', outcome) := Switch(w, toAgent);
    hide Switch, Concludes, StopsWhenGone, NoOverlap, AllBridged, HasGone;
    var log := w'.log;
    forall c, i, j | 0 <= c < i < j < |log| && log[c].Captured? && log[i].Rebound? && log[j].Connected?
      ensures log[i].adapterId != log[j].adapterId
    {
      assert c + 1 == mark;
    }
  }

  /** Leases were captured, and if the session had bridges then, each of them that is current is bridged. */
  predicate CapturedAreBridged(w: World) {
    && (exists c :: 0 <= c < |w.log| && w.log[c].Captured?)
    && (forall c :: 0 <= c < |w.log| && w.log[c].Captured? && w.log[c].hadBridges ==> AllBridged(w, w.log[c].leases))
  }

  lemma BridgedByChronicle(w: World, outcome: Outcome, leases: seq<Lease>, mark: nat)
    requires Chronicle(w, outcome, leases, mark) && (outcome.Switched? || outcome.RolledBack?)
    ensures CapturedAreBridged(w)
  {
    hide StopsWhenGone, NoOverlap, HasGone, NeverRebridged, AllBridged;
    assert w.log[mark - 1].Captured?;
  }

  /**
   * After a commit or a completed rollback of a session that had bridges, every captured
   * adapter whose lease is still current is bridged.
   */
  lemma CurrentLeasesAreBridged(w: World, toAgent: string)
    requires Coherent(w) && !w.switching
    ensures var (w', outcome) := Switch(w, toAgent);
      outcome.Switched? || outcome.RolledBack? ==> CapturedAreBridged(w')
  {
    var leases, mark := SwitchKeeps(w, toAgent);
    hide Switch, Concludes, Chronicle, CapturedAreBridged;
    var (w', outcome) := Switch(w, toAgent);
    if outcome.Switched? || outcome.RolledBack? { BridgedByChronicle(w', outcome, leases, mark); }
  }

  /** While a switch runs every other attempt on the session is refused; afterwards the lock is free. */
  lemma OneSwitchAtATime(w: World, toAgent: string)
    requires Coherent(w)
    ensures var (w', outcome) := Switch(w, toAgent);
      && (outcome.InProgress? <==> w.switching)
      && (w.switching ==> w' == w)
      && (!w.switching ==> !w'.switching && NoOverlap(w'.log))
  {
    if !w.switching {
      var _, _ := SwitchKeeps(w, toAgent);
      BeginSound(w);
      var _, _ := DoSwitchKeeps(Begin(w), toAgent);
      hide DoSwitch, Concludes;
    }
  }

  // ---- What the handler's surroundings get wrong ----

  /**
   * `switchAgent` does not leave the session unchanged when its factory throws: the switch
   * history has grown by the entry for the current agent, and the agent's process may be
   * gone.  Only the rollback removes that entry again.
   */
  lemma FailedSwitchAgentLeavesTrace(w: World, toAgent: string, canResume: bool, leases: seq<Lease>, mark: nat)
    requires Sound(w, leases, mark) && Live(w) && toAgent != w.session.runtime.agentName
    ensures var (w', made) := SwitchAgent(w, toAgent, canResume);
      made.NotCreated? ==>
        && |w'.session.runtime.history| == |w.session.runtime.history| + 1
        && w'.session.runtime.agentName == w.session.runtime.agentName
        && w'.session.runtime != w.session.runtime
  {
    SwitchAgentKeeps(w, toAgent, canResume, leases, mark);
  }

  /**
   * No switch changes the record's lifecycle status.  In particular a double failure leaves a failed,
   * terminated session whose record does not say so: the patch that would is sent too late.
   */
  lemma DoubleFailureIsNotRecorded(w: World, toAgent: string)
    requires Coherent(w) && !w.switching
    ensures var (w', outcome) := Switch(w, toAgent);
      && w'.record.Some? == w.record.Some?
      && (w.record.Some? ==> w'.record.value.status == w.record.value.status)
      && (outcome.RollbackFailed? ==> w'.session.status.Error? && w'.session.terminating)
  {
    var _, _ := SwitchKeeps(w, toAgent);
    hide Switch, Chronicle, RunsOn, RecordCounts;
  }
}
