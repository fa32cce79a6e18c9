/**
 * What every step of an agent switch keeps, whatever runs beside it.
 */
module AgentSwitchInvariant {
  import opened Wrappers
  import opened AgentSwitch

  // ---- What the log may say ----

  predicate HasGone(log: seq<Event>) {
    exists i :: 0 <= i < |log| && log[i].Gone?
  }

  /** Nothing is bridged and no result announced once the session is gone. */
  predicate StopsWhenGone(log: seq<Event>) {
    forall i, j :: 0 <= i < j < |log| && log[i].Gone? ==>
      !log[j].Connected? && !log[j].Succeeded? && !log[j].Failed?
  }

  predicate ReboundSince(log: seq<Event>, mark: nat, adapterId: string) {
    exists i :: mark <= i < |log| && log[i] == Rebound(adapterId)
  }

  /** Since `mark`, no adapter is bridged after its binding changed. */
  predicate NeverRebridged(log: seq<Event>, mark: nat) {
    forall i, j :: mark <= i < j < |log| && log[i].Rebound? && log[j].Connected? ==>
      log[i].adapterId != log[j].adapterId
  }

  /** The only capture is the one of `leases`, just before `mark`. */
  predicate CapturedOnce(log: seq<Event>, leases: seq<Lease>, mark: nat) {
    forall i :: 0 <= i < |log| && log[i].Captured? ==> i + 1 == mark && log[i].leases == leases
  }

  predicate NoOverlap(log: seq<Event>) {
    forall i :: 0 <= i < |log| ==> !log[i].Overlapped?
  }

  /** Each lease is at most as new as its adapter's binding, and older once that binding changed. */
  predicate Tracked(w: World, leases: seq<Lease>, mark: nat) {
    forall l :: l in leases ==>
      && l.generation <= Generation(w.session.bindings, l.adapterId)
      && (ReboundSince(w.log, mark, l.adapterId) ==>
            l.generation < Generation(w.session.bindings, l.adapterId))
  }

  predicate LogSound(log: seq<Event>, leases: seq<Lease>, mark: nat) {
    && mark <= |log|
    && StopsWhenGone(log)
    && NeverRebridged(log, mark)
    && CapturedOnce(log, leases, mark)
    && NoOverlap(log)
  }

  predicate Sound(w: World, leases: seq<Lease>, mark: nat) {
    && LogSound(w.log, leases, mark)
    && (HasGone(w.log) <==> !Live(w))
    && Tracked(w, leases, mark)
    && w.switching
    && (w.session.terminating ==> w.bridges == {} && w.session.actionsSuspended)
  }

  /** Every current lease among `leases` is bridged. */
  predicate AllBridged(w: World, leases: seq<Lease>) {
    forall l :: l in leases && Live(w) && Current(w.session.bindings, l) ==> l.adapterId in w.bridges
  }

  // ---- What other code leaves alone ----

  /** The record's lifecycle status is not the switch's to change. */
  predicate StatusKept(w: World, w': World) {
    && w'.record.Some? == w.record.Some?
    && (w.record.Some? ==> w'.record.value.status == w.record.value.status)
  }

  /** Whoever acts, the session's life only ends and the log only grows. */
  predicate Later(w: World, w': World) {
    && StatusKept(w, w')
    && (Live(w') ==> Live(w))
    && (w.session.terminating ==> w'.session.terminating)
    && (w.session.status.Error? ==> w'.session.status.Error?)
    && w.log <= w'.log
    && w'.installed == w.installed
    && w'.resumable == w.resumable
    && w'.hasContext == w.hasContext
    && w'.hasMiddleware == w.hasMiddleware
  }

  /** Other code changes neither the agent nor the record. */
  predicate Beside(w: World, w': World) {
    && Later(w, w')
    && w'.session.runtime == w.session.runtime
    && w'.session.promptCount >= w.session.promptCount
    && w'.record == w.record
    && (Live(w') ==> w'.session.actionsSuspended == w.session.actionsSuspended)
  }

  predicate Among(done: seq<Lease>, leases: seq<Lease>) {
    forall l :: l in done ==> l in leases
  }

  // ---- Growing the log ----

  /** `e` may follow what the log says so far. */
  predicate MayFollow(log: seq<Event>, mark: nat, e: Event) {
    && !e.Captured?
    && !e.Overlapped?
    && (e.Connected? || e.Succeeded? || e.Failed? ==> !HasGone(log))
    && (e.Connected? ==> !ReboundSince(log, mark, e.adapterId))
  }

  lemma LogGrows(log: seq<Event>, leases: seq<Lease>, mark: nat, e: Event)
    requires LogSound(log, leases, mark) && MayFollow(log, mark, e)
    ensures LogSound(log + [e], leases, mark)
    ensures HasGone(log + [e]) <==> HasGone(log) || e.Gone?
    ensures forall a :: ReboundSince(log + [e], mark, a) <==> ReboundSince(log, mark, a) || e == Rebound(a)
  {
    var log' := log + [e];
    forall i, j | 0 <= i < j < |log'| && log'[i].Gone?
      ensures !log'[j].Connected? && !log'[j].Succeeded? && !log'[j].Failed?
    {
      if j == |log| { assert log[i].Gone?; }
    }
    forall i, j | mark <= i < j < |log'| && log'[i].Rebound? && log'[j].Connected?
      ensures log'[i].adapterId != log'[j].adapterId
    {
      if j == |log| { assert log[i] == Rebound(log[i].adapterId); }
    }
    if HasGone(log) {
      var i :| 0 <= i < |log| && log[i].Gone?;
      assert log'[i].Gone?;
    }
    if e.Gone? { assert log'[|log|].Gone?; }
    forall a
      ensures ReboundSince(log', mark, a) <==> ReboundSince(log, mark, a) || e == Rebound(a)
    {
      ReboundGrows(log, mark, e, a);
    }
  }

  lemma ReboundGrows(log: seq<Event>, mark: nat, e: Event, a: string)
    requires mark <= |log|
    ensures ReboundSince(log + [e], mark, a) <==> ReboundSince(log, mark, a) || e == Rebound(a)
  {
    var log' := log + [e];
    if ReboundSince(log, mark, a) {
      var i :| mark <= i < |log| && log[i] == Rebound(a);
      assert log'[i] == Rebound(a);
    }
    if e == Rebound(a) { assert log'[|log|] == Rebound(a); }
  }

  lemma NoteKeepsSound(w: World, leases: seq<Lease>, mark: nat, e: Event)
    requires Sound(w, leases, mark) && MayFollow(w.log, mark, e) && !e.Gone? && !e.Rebound?
    ensures Sound(Note(w, e), leases, mark)
  {
    hide LogSound, ReboundSince, HasGone;
    LogGrows(w.log, leases, mark, e);
  }

  // ---- One action of other code ----

  /** A changed binding leaves the leases of the other adapters as they were, and its own stale. */
  lemma AttachChangesOne(b: Bindings, id: string, thread: string, l: Lease)
    requires l.generation <= Generation(b, l.adapterId)
    ensures var b' := AttachBinding(b, id, thread);
      && Generation(b', l.adapterId) == Generation(b, l.adapterId) + (if l.adapterId == id then 1 else 0)
      && (Current(b', l) <==> l.adapterId != id && Current(b, l))
  {
  }

  lemma DetachChangesOne(b: Bindings, id: string, l: Lease)
    requires l.generation <= Generation(b, l.adapterId)
    ensures var b' := DetachBinding(b, id);
      && Generation(b', l.adapterId) == Generation(b, l.adapterId) + (if l.adapterId == id then 1 else 0)
      && (Current(b', l) <==> l.adapterId != id && Current(b, l))
  {
  }

  /** Attaching binds the adapter to the thread, under a new generation, and leaves all other adapters alone. */
  lemma AttachingBindsOne(b: Bindings, id: string, thread: string, a: string)
    ensures
      var b' := AttachBinding(b, id, thread);
      && Current(b', Lease(id, thread, Generation(b, id) + 1))
      && id in b'.threads && b'.threads[id] == thread
      && (a != id ==>
            && (a in b'.attached <==> a in b.attached)
            && (a in b'.threads <==> a in b.threads) && (a in b.threads ==> b'.threads[a] == b.threads[a])
            && Generation(b', a) == Generation(b, a))
      && b.attached <= b'.attached && b'.channelId == b.channelId
  {
  }

  /** Detaching forgets the adapter's thread, under a new generation, and leaves all other adapters alone. */
  lemma DetachingForgetsOne(b: Bindings, id: string, a: string)
    ensures
      var b' := DetachBinding(b, id);
      && id !in b'.attached && id !in b'.threads && Generation(b', id) == Generation(b, id) + 1
      && (a != id ==>
            && (a in b'.attached <==> a in b.attached)
            && (a in b'.threads <==> a in b.threads) && (a in b.threads ==> b'.threads[a] == b.threads[a])
            && Generation(b', a) == Generation(b, a))
      && b'.channelId == b.channelId
  {
  }

  lemma AttachKeeps(w: World, id: string, thread: string, leases: seq<Lease>, mark: nat, done: seq<Lease>)
    requires Sound(w, leases, mark) && Among(done, leases) && AllBridged(w, done)
    ensures var w' := Act(w, Attach(id, thread));
      Sound(w', leases, mark) && Beside(w, w') && AllBridged(w', done)
  {
    hide LogSound, ReboundSince, HasGone;
    LogGrows(w.log, leases, mark, Rebound(id));
    forall l | l in leases
      ensures l.generation <= Generation(w.session.bindings, l.adapterId)
      ensures var b' := AttachBinding(w.session.bindings, id, thread);
        && Generation(b', l.adapterId)
           == Generation(w.session.bindings, l.adapterId) + (if l.adapterId == id then 1 else 0)
        && (Current(b', l) <==> l.adapterId != id && Current(w.session.bindings, l))
    {
      AttachChangesOne(w.session.bindings, id, thread, l);
    }
    hide Current, AttachBinding, Generation;
  }

  lemma DetachKeeps(w: World, id: string, leases: seq<Lease>, mark: nat, done: seq<Lease>)
    requires Sound(w, leases, mark) && Among(done, leases) && AllBridged(w, done)
    ensures var w' := Act(w, Detach(id));
      Sound(w', leases, mark) && Beside(w, w') && AllBridged(w', done)
  {
    hide LogSound, ReboundSince, HasGone;
    LogGrows(w.log, leases, mark, Rebound(id));
    forall l | l in leases
      ensures l.generation <= Generation(w.session.bindings, l.adapterId)
      ensures var b' := DetachBinding(w.session.bindings, id);
        && Generation(b', l.adapterId)
           == Generation(w.session.bindings, l.adapterId) + (if l.adapterId == id then 1 else 0)
        && (Current(b', l) <==> l.adapterId != id && Current(w.session.bindings, l))
    {
      DetachChangesOne(w.session.bindings, id, l);
    }
    hide Current, DetachBinding, Generation;
  }

  lemma ActKeeps(w: World, a: Action, leases: seq<Lease>, mark: nat, done: seq<Lease>)
    requires Sound(w, leases, mark) && Among(done, leases) && AllBridged(w, done)
    ensures Sound(Act(w, a), leases, mark)
    ensures Beside(w, Act(w, a))
    ensures AllBridged(Act(w, a), done)
  {
    match a {
      case Attach(id, thread) => AttachKeeps(w, id, thread, leases, mark, done);
      case Detach(id) => DetachKeeps(w, id, leases, mark, done);
      case Terminate(_) =>
        hide LogSound, ReboundSince, HasGone, Current;
        LogGrows(w.log, leases, mark, Gone);
      case Replace =>
        hide LogSound, ReboundSince, HasGone, Current;
        LogGrows(w.log, leases, mark, Gone);
      case SwitchAgain =>
        hide LogSound, ReboundSince, HasGone, Current;
        LogGrows(w.log, leases, mark, Refused);
      case Finish => hide LogSound, ReboundSince, HasGone, Current;
      case Prompt => hide LogSound, ReboundSince, HasGone, Current;
      case Plug(_, _) => hide LogSound, ReboundSince, HasGone, Current;
      case Unplug(_) => hide LogSound, ReboundSince, HasGone, Current;
    }
  }

  lemma {:induction false} ActAllKeeps(w: World, actions: seq<Action>, leases: seq<Lease>, mark: nat,
                                       done: seq<Lease>)
    requires Sound(w, leases, mark) && Among(done, leases) && AllBridged(w, done)
    ensures Sound(ActAll(w, actions), leases, mark)
    ensures Beside(w, ActAll(w, actions))
    ensures AllBridged(ActAll(w, actions), done)
    decreases |actions|
  {
    hide Sound, AllBridged, Act, Among;
    if actions != [] {
      ActKeeps(w, actions[0], leases, mark, done);
      ActAllKeeps(Act(w, actions[0]), actions[1..], leases, mark, done);
    }
  }

  /** Giving up control keeps everything the transaction relies on. */
  lemma PauseKeeps(w: World, leases: seq<Lease>, mark: nat, done: seq<Lease>)
    requires Sound(w, leases, mark) && Among(done, leases) && AllBridged(w, done)
    ensures Sound(Pause(w), leases, mark)
    ensures Beside(w, Pause(w))
    ensures AllBridged(Pause(w), done)
  {
    hide LogSound, ReboundSince, HasGone, Current, Generation;
    var w0 := w.(future := if w.future == [] then [] else w.future[1..]);
    assert Sound(w0, leases, mark) && AllBridged(w0, done) && Beside(w, w0);
    ActAllKeeps(w0, Next(w).actions, leases, mark, done);
  }
}
