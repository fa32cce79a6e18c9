/**
 * Which switches are let through, what a refused one leaves, and what the others capture.
 */
module AgentSwitchAdmission {
  import opened Wrappers
  import opened AgentSwitch
  import opened AgentSwitchInvariant
  import opened AgentSwitchSteps
  import opened AgentSwitchTheorems
  import opened AgentSwitchSchedules
  import opened AgentSwitchOrder

  // ---- Admission ----

  /** The tick that the middleware, or else whatever waits first, is answered by. */
  function FirstTick(w: World): Tick {
    if w.future == [] then Tick([], true, "", false) else w.future[0]
  }

  /** Session and agent pass the checks before the middleware is asked. */
  predicate Eligible(w: World, toAgent: string) {
    w.registered && toAgent in w.installed && toAgent != w.session.runtime.agentName
  }

  /** The session is over by the time the middleware has answered. */
  predicate Over(w: World) {
    w.session.terminating || (w.hasMiddleware && Ending(FirstTick(w)))
  }

  /** The middleware, if there is one, lets the switch through. */
  predicate Permitted(w: World) {
    w.hasMiddleware ==> FirstTick(w).ok
  }

  /** The world when the switch is decided on: locked, with a fresh log, and after the middleware if it was asked. */
  function Decided(w: World, toAgent: string): World {
    var locked := w.(switching := true, log := if w.registered && !w.session.terminating then [] else [Gone]);
    if Eligible(w, toAgent) && w.hasMiddleware then Pause(locked) else locked
  }

  lemma ProceedOutcome(w: World, toAgent: string)
    ensures var o := Proceed(w, toAgent).1;
      !o.InProgress? && !o.NotFound? && !o.NotInstalled? && !o.AlreadyUsing? && !o.Vetoed?
    ensures Proceed(w, toAgent).1.Incoherent? <==> CaptureLeases(w.session.bindings).None?
  {
    hide CaptureLeases, CleanAll, Commit, Rollback;
  }

  /**
   * Exactly which switches are refused, and why. A refused one leaves everything as it was when it was decided on:
   * nothing is announced, captured or disconnected, and other code alone may have acted while the middleware was asked.
   */
  lemma SwitchIsAdmittedExactly(w: World, toAgent: string)
    requires !w.switching
    ensures
      var (w', outcome) := Switch(w, toAgent);
      var using := w.session.runtime.agentName;
      && (outcome.NotFound? <==> !w.registered)
      && (outcome.NotInstalled? <==> w.registered && toAgent !in w.installed)
      && (outcome.AlreadyUsing? <==> w.registered && toAgent in w.installed && toAgent == using)
      && (outcome.Vetoed? <==> Eligible(w, toAgent) && !Over(w) && w.hasMiddleware && !FirstTick(w).ok)
      && (Eligible(w, toAgent) && Over(w) ==> outcome.Terminated?)
      && (!(Eligible(w, toAgent) && !Over(w) && Permitted(w)) ==>
            w' == Decided(w, toAgent).(switching := false))
    ensures OnlyForeign(if Live(w) then [] else [Gone], Decided(w, toAgent).log)
  {
    var w0 := Begin(w);
    PauseLogs(w0);
    assert OnlyForeign(w0.log, w0.log);
    hide Pause, Ending, Proceed, DoSwitch, OnlyForeign;
    if Eligible(w, toAgent) {
      PauseEnds(w0);
      assert Next(w0) == FirstTick(w);
      EligibleSwitch(w0, toAgent);
    } else {
      IneligibleSwitch(w0, toAgent);
    }
  }

  lemma IneligibleSwitch(w: World, toAgent: string)
    requires !Eligible(w, toAgent)
    ensures DoSwitch(w, toAgent)
      == (w, if !w.registered then NotFound else if toAgent !in w.installed then NotInstalled else AlreadyUsing)
  {
    hide Pause, Proceed;
  }

  lemma EligibleSwitch(w: World, toAgent: string)
    requires Eligible(w, toAgent)
    ensures
      var w1 := if w.hasMiddleware then Pause(w) else w;
      var (w', o) := DoSwitch(w, toAgent);
      if !Live(w1) then w' == w1 && o.Terminated?
      else if w.hasMiddleware && !Next(w).ok then w' == w1 && o.Vetoed?
      else !o.NotFound? && !o.NotInstalled? && !o.AlreadyUsing? && !o.Vetoed?
  {
    var w1 := if w.hasMiddleware then Pause(w) else w;
    ProceedOutcome(w1, toAgent);
    hide Pause, Proceed, CaptureLeases;
  }

  /** An attached adapter without a thread: neither bound to one nor on the session's own channel. */
  predicate Unbound(b: Bindings) {
    exists a :: a in b.attached && a !in b.threads && a != b.channelId
  }

  lemma CaptureFailsExactly(b: Bindings)
    ensures CaptureLeases(b).None? <==> Unbound(b)
  {
    CaptureCovers(b);
    if CaptureLeases(b).Some? {
      forall a | a in b.attached ensures a in b.threads || a == b.channelId {
        assert ThreadOf(b, a).Some?;
      }
    } else {
      var a :| a in b.attached && ThreadOf(b, a).None?;
      assert a in b.attached && a !in b.threads && a != b.channelId;
    }
    hide CaptureLeases;
  }

  /** One lease for each attached adapter, with its thread and generation of this moment. */
  predicate Captures(b: Bindings, leases: seq<Lease>) {
    && (forall l :: l in leases ==>
          && l.adapterId in b.attached
          && l.threadId == (if l.adapterId in b.threads then b.threads[l.adapterId] else "")
          && (l.adapterId in b.threads || l.adapterId == b.channelId)
          && l.generation == (if l.adapterId in b.generations then b.generations[l.adapterId] else 0))
    && (forall a :: a in b.attached ==> exists l :: l in leases && l.adapterId == a)
    && (forall i, j :: 0 <= i < j < |leases| ==> leases[i].adapterId != leases[j].adapterId)
  }

  /**
   * A switch that is let through announces its start, then captures one lease for each adapter attached at that
   * moment and whether there were bridges; it stops there, without a capture, exactly when one of them has no thread.
   */
  lemma AdmittedSwitchCaptures(w: World, toAgent: string) returns (leases: seq<Lease>)
    requires Coherent(w) && !w.switching && Eligible(w, toAgent) && !Over(w) && Permitted(w)
    ensures
      var (w', outcome) := Switch(w, toAgent);
      var now := Decided(w, toAgent);
      && (outcome.Incoherent? <==> Unbound(now.session.bindings))
      && (outcome.Incoherent? ==> w' == now.(log := now.log + [Starting], switching := false))
      && (!outcome.Incoherent? ==>
            && Captures(now.session.bindings, leases)
            && now.log + [Starting, Captured(leases, now.bridges != {})] <= w'.log)
  {
    var w0 := Begin(w);
    BeginSound(w);
    PauseEnds(w0);
    PauseKeeps(w0, [], 0, []);
    var now := Decided(w, toAgent);
    assert Next(w0) == FirstTick(w);
    assert Switch(w, toAgent) == (Proceed(now, toAgent).0.(switching := false), Proceed(now, toAgent).1) by {
      hide Pause, Proceed, Sound, Ending;
    }
    ProceedOutcome(now, toAgent);
    CaptureFailsExactly(now.session.bindings);
    leases := [];
    hide Pause, Captures, Unbound, Ending, Sound, Decided;
    if CaptureLeases(now.session.bindings).Some? {
      leases := ProceedCaptures(now, toAgent);
      hide Proceed, CaptureLeases;
    }
  }

  lemma ProceedCaptures(w: World, toAgent: string) returns (leases: seq<Lease>)
    requires Sound(w, [], 0) && Live(w) && Agrees(w) && toAgent != w.session.runtime.agentName
    requires CaptureLeases(w.session.bindings).Some?
    ensures Captures(w.session.bindings, leases)
    ensures w.log + [Starting, Captured(leases, w.bridges != {})] <= Proceed(w, toAgent).0.log
  {
    leases := CaptureLeases(w.session.bindings).value;
    LeasesAreCaptures(w.session.bindings, leases);
    var plan, w1, errors := Prepare(w, toAgent, leases);
    var noted := Note(Note(w, Starting), Captured(leases, w.bridges != {}));
    CaptureKeeps(w, leases);
    assert noted.log == w.log + [Starting, Captured(leases, w.bridges != {})];
    hide Sound, Execute, AbandonCleanup, HasEntry, CaptureLeases, Captures;
    CleanAllKeeps(Suspend(Disconnect(noted)), leases, leases, |w.log| + 2);
    hide CleanAll;
    if Live(w1) { DecidedLogs(w1, plan, errors, |w.log| + 2); }
  }

  lemma DecidedLogs(w: World, plan: Plan, errors: nat, mark: nat)
    requires Sound(w, plan.leases, mark) && Live(w) && Agrees(w)
    requires plan.fromAgent == w.session.runtime.agentName != plan.toAgent
    ensures w.log <= if errors > 0 then AbandonCleanup(w, plan).0.log else Execute(w, plan).0.log
  {
    AbandonKeeps(w, plan, mark);
    ExecuteKeeps(w, plan, mark);
    hide Sound, Execute, AbandonCleanup, Chronicle, EndsWell;
  }

  lemma LeasesAreCaptures(b: Bindings, leases: seq<Lease>)
    requires CaptureLeases(b) == Some(leases)
    ensures Captures(b, leases)
  {
    CaptureCovers(b);
    hide CaptureLeases;
  }
}
