/**
 * The agent store: many in-memory copies of one file, changed under a lock by an
 * optimistic three-way merge.
 */
module StoreMerge {
  import opened Wrappers
  import opened InstalledAgents

  // ---- The three-way merge ----

  datatype Merged = Merged(installed: Installed, applied: set<string>, conflicts: set<string>)

  /** The keys a draft changes relative to its base. */
  function ChangedKeys(base: Installed, draft: Installed): set<string> {
    set key | key in base.Keys + draft.Keys && Get(base, key) != Get(draft, key)
  }

  /** Take the draft's value under each changed key that nobody else has changed. */
  function Merge(current: Installed, base: Installed, draft: Installed): Merged {
    var changed := ChangedKeys(base, draft);
    var conflicts := set key | key in changed && Get(current, key) != Get(base, key);
    var applied := changed - conflicts;
    Merged((current - applied) + (map key | key in applied && key in draft :: draft[key]), applied, conflicts)
  }

  /**
   * Every key is decided by the three values it has: unchanged keys keep the current value,
   * keys changed by the draft alone take the draft's, keys changed by both keep the current
   * value and are reported.
   */
  lemma MergeDecides(current: Installed, base: Installed, draft: Installed, key: string)
    ensures
      var m := Merge(current, base, draft);
      var mine, theirs := Get(base, key) != Get(draft, key), Get(current, key) != Get(base, key);
      && Get(m.installed, key) == (if mine && !theirs then Get(draft, key) else Get(current, key))
      && (key in m.applied <==> mine && !theirs)
      && (key in m.conflicts <==> mine && theirs)
  {
  }

  /** Applied and conflicting keys partition the changed ones. */
  lemma MergePartitions(current: Installed, base: Installed, draft: Installed)
    ensures var m := Merge(current, base, draft);
      m.applied + m.conflicts == ChangedKeys(base, draft) && m.applied !! m.conflicts
  {
  }

  /** Without a concurrent writer the merge installs exactly the draft. */
  lemma UncontendedMergeInstallsDraft(base: Installed, draft: Installed)
    ensures Merge(base, base, draft).installed == draft && Merge(base, base, draft).conflicts == {}
  {
    forall key ensures Get(Merge(base, base, draft).installed, key) == Get(draft, key) {
      MergeDecides(base, base, draft, key);
    }
    SameByKey(Merge(base, base, draft).installed, draft);
  }

  /** Two drafts of one base that change different keys give the same result in either order. */
  lemma DisjointMergesCommute(current: Installed, base: Installed, one: Installed, two: Installed)
    requires ChangedKeys(base, one) !! ChangedKeys(base, two)
    ensures
      var oneFirst := Merge(Merge(current, base, one).installed, base, two);
      var twoFirst := Merge(Merge(current, base, two).installed, base, one);
      && oneFirst.installed == twoFirst.installed
      && oneFirst.applied == Merge(current, base, two).applied
      && twoFirst.applied == Merge(current, base, one).applied
  {
    var afterOne, afterTwo := Merge(current, base, one).installed, Merge(current, base, two).installed;
    forall key
      ensures Get(Merge(afterOne, base, two).installed, key) == Get(Merge(afterTwo, base, one).installed, key)
      ensures key in Merge(afterOne, base, two).applied <==> key in Merge(current, base, two).applied
      ensures key in Merge(afterTwo, base, one).applied <==> key in Merge(current, base, one).applied
    {
      assert !(key in ChangedKeys(base, one) && key in ChangedKeys(base, two));
      assert key in ChangedKeys(base, one) <==> Get(base, key) != Get(one, key);
      assert key in ChangedKeys(base, two) <==> Get(base, key) != Get(two, key);
      MergeDecides(current, base, one, key);
      MergeDecides(current, base, two, key);
      MergeDecides(afterOne, base, two, key);
      MergeDecides(afterTwo, base, one, key);
    }
    SameByKey(Merge(afterOne, base, two).installed, Merge(afterTwo, base, one).installed);
  }

  /** Two writers that make the same change conflict all the same: the second reports a key that is already right. */
  lemma AgreeingWritersConflict(current: Installed, base: Installed, draft: Installed, key: string)
    requires Get(base, key) != Get(draft, key) == Get(current, key)
    ensures key in Merge(current, base, draft).conflicts
    ensures Get(Merge(current, base, draft).installed, key) == Get(draft, key)
  {
    MergeDecides(current, base, draft, key);
  }

  // ---- One update of the file ----

  const MAX_SAFE_INTEGER: nat := 0x1F_FFFF_FFFF_FFFF

  datatype StoreData = StoreData(version: int, revision: nat, installed: Installed)

  const EMPTY := StoreData(1, 0, map[])

  datatype Content = Absent | Corrupt | Present(data: StoreData)

  /** How the file system behaves during one call. */
  datatype Faults = Faults(locked: bool, readable: bool, movable: bool, writable: bool)

  datatype Request =
    | Add(key: string, agent: InstalledAgent)
    | Remove(key: string, expected: Option<InstalledAgent>)
    | Replace(draft: Installed)

  datatype Reply =
    | Busy
    | Unreadable
    | NotQuarantined
    | Exhausted
    | Malformed
    | NotSaved
    | Unchanged
    | Committed

  /** What the store holds after a call, and what the file holds. */
  datatype Effect = Effect(data: StoreData, disk: Content, reply: Reply)

  /** What a reader of the file sees; a damaged file is moved away before it is replaced. */
  function Seen(disk: Content): StoreData {
    if disk.Present? then disk.data else EMPTY
  }

  /** The new collection, and whether the request changes anything. */
  function Mutate(base: Installed, current: Installed, request: Request): (Installed, bool) {
    match request
    case Add(key, agent) => (current[key := agent], true)
    case Remove(key, expected) =>
      if key !in current || (expected.Some? && current[key] != expected.value) then (current, false)
      else (current - {key}, true)
    case Replace(draft) =>
      var m := Merge(current, base, draft);
      (m.installed, m.applied != {})
  }

  predicate Schema(data: StoreData) {
    forall key :: key in data.installed ==> WellFormed(data.installed[key])
  }

  /** `updateUnderLock`: read, mutate, check, write. */
  function Update(data: StoreData, disk: Content, request: Request, faults: Faults): Effect {
    if faults.locked then Effect(data, disk, Busy)
    else if !disk.Absent? && !faults.readable then Effect(data, disk, Unreadable)
    else if disk.Corrupt? && !faults.movable then Effect(data, disk, NotQuarantined)
    else
      var current := Seen(disk);
      var kept := if disk.Corrupt? then Absent else disk;
      var (installed, changed) := Mutate(data.installed, current.installed, request);
      var next := StoreData(current.version, current.revision + 1, installed);
      if !changed then Effect(current, kept, Unchanged)
      else if current.revision + 1 > MAX_SAFE_INTEGER then Effect(current, kept, Exhausted)
      else if !Schema(next) then Effect(current, kept, Malformed)
      else if !faults.writable then Effect(current, kept, NotSaved)
      else Effect(next, Present(next), Committed)
  }

  /** `load`: start empty when the file cannot be read or understood. */
  function Load(disk: Content, readable: bool): StoreData {
    if disk.Present? && readable then disk.data else EMPTY
  }

  /** The call could not even look at the file. */
  predicate Blind(reply: Reply) {
    reply.Busy? || reply.Unreadable? || reply.NotQuarantined?
  }

  /**
   * After a call, successful or not, the store holds what the file holds, except for the calls
   * that could not look at the file: those change neither.
   */
  lemma MemoryFollowsDisk(data: StoreData, disk: Content, request: Request, faults: Faults)
    ensures var e := Update(data, disk, request, faults);
      && (e.reply.Busy? <==> faults.locked)
      && (e.reply.Unreadable? <==> !faults.locked && !disk.Absent? && !faults.readable)
      && (e.reply.NotQuarantined? <==> !faults.locked && disk.Corrupt? && faults.readable && !faults.movable)
      && (if Blind(e.reply) then e.data == data && e.disk == disk
          else !e.disk.Corrupt? && e.data == Seen(e.disk))
      && (e.disk != disk && !disk.Corrupt? ==> e.reply.Committed?)
  {
  }

  /** What a request wants to be under a key: an add and a removal speak of their own key, a draft of what only it changed. */
  function Wanted(request: Request, base: Installed, current: Installed, key: string): Option<InstalledAgent> {
    match request
    case Add(k, agent) => if key == k then Some(agent) else Get(current, key)
    case Remove(k, expected) =>
      if key == k && (expected.None? || Get(current, key) == expected) then None else Get(current, key)
    case Replace(draft) => if Get(current, key) == Get(base, key) then Get(draft, key) else Get(current, key)
  }

  /** A request has something to do: an add always, a removal of what is there, a draft with an uncontested change. */
  ghost predicate Effective(request: Request, base: Installed, current: Installed) {
    match request
    case Add(_, _) => true
    case Remove(key, expected) => key in current && (expected.None? || current[key] == expected.value)
    case Replace(draft) => exists key :: Get(draft, key) != Get(base, key) == Get(current, key)
  }

  lemma MutateIsExact(base: Installed, current: Installed, request: Request)
    ensures Mutate(base, current, request).1 <==> Effective(request, base, current)
    ensures forall key :: Get(Mutate(base, current, request).0, key) == Wanted(request, base, current, key)
  {
    if request.Replace? {
      var m := Merge(current, base, request.draft);
      forall key
        ensures Get(m.installed, key) == Wanted(request, base, current, key)
        ensures key in m.applied <==> Get(request.draft, key) != Get(base, key) == Get(current, key)
      {
        MergeDecides(current, base, request.draft, key);
      }
      hide Merge;
      if m.applied != {} { var key :| key in m.applied; }
    }
  }

  /** A call that could look at the file does what it wants unless exactly one of these stands in its way, in this order. */
  lemma RepliesAreExact(data: StoreData, disk: Content, request: Request, faults: Faults)
    ensures
      var e := Update(data, disk, request, faults);
      var base, current := data.installed, Seen(disk).installed;
      var wellFormed := forall key :: Wanted(request, base, current, key).Some? ==>
                          WellFormed(Wanted(request, base, current, key).value);
      !Blind(e.reply) ==>
        && e.reply == (if !Effective(request, base, current) then Unchanged
                       else if Seen(disk).revision >= 9_007_199_254_740_991 then Exhausted
                       else if !wellFormed then Malformed
                       else if !faults.writable then NotSaved
                       else Committed)
        && (e.reply.Committed? ==> forall key :: Get(e.data.installed, key) == Wanted(request, base, current, key))
  {
    var base, current := data.installed, Seen(disk).installed;
    MutateIsExact(base, current, request);
    var installed := Mutate(base, current, request).0;
    hide Mutate, Effective, Wanted, WellFormed;
    if forall key :: key in installed ==> WellFormed(installed[key]) {
      forall key | Wanted(request, base, current, key).Some?
        ensures WellFormed(Wanted(request, base, current, key).value)
      {
        assert Get(installed, key) == Wanted(request, base, current, key);
      }
    } else {
      var key :| key in installed && !WellFormed(installed[key]);
      assert Get(installed, key) == Wanted(request, base, current, key);
    }
  }

  /** So a store that finds the lock taken may go on with data the file no longer holds. */
  lemma BusyStoreStaysStale(agent: InstalledAgent)
    requires WellFormed(agent)
    ensures
      var written := Update(EMPTY, Absent, Add("claude", agent), Faults(false, true, true, true));
      var refused := Update(EMPTY, written.disk, Remove("claude", None), Faults(true, true, true, true));
      refused.reply.Busy? && refused.data == EMPTY != Seen(refused.disk)
  {
    assert "claude" in EMPTY.installed["claude" := agent];
  }

  const NO_FAULTS := Faults(false, true, true, true)

  /** A request that every writer may make of a file that is not worn out. */
  predicate Acceptable(disk: Content, request: Request) {
    && Seen(disk).revision < MAX_SAFE_INTEGER
    && Schema(Seen(disk))
    && match request
       case Add(_, agent) => WellFormed(agent)
       case Remove(_, _) => true
       case Replace(draft) => forall key :: key in draft ==> WellFormed(draft[key])
  }

  /**
   * Without faults an acceptable request takes effect, even over a damaged file: an agent is added,
   * an expected one removed, and of a draft every change that no other writer contests.
   */
  lemma FaultlessCallsTakeEffect(data: StoreData, disk: Content, request: Request, key: string)
    requires Acceptable(disk, request)
    ensures
      var e := Update(data, disk, request, NO_FAULTS);
      var before, after := Seen(disk).installed, e.data.installed;
      && (e.reply.Committed? || e.reply.Unchanged?) && e.data == Seen(e.disk)
      && Get(after, key) == match request
         case Add(k, agent) => if key == k then Some(agent) else Get(before, key)
         case Remove(k, expected) =>
           if key == k && (expected.None? || Get(before, key) == expected) then None else Get(before, key)
         case Replace(draft) =>
           if Get(before, key) == Get(data.installed, key) then Get(draft, key)
           else Get(before, key)
    ensures request.Replace? && Get(Seen(disk).installed, key) == Get(data.installed, key) != Get(request.draft, key) ==>
      Update(data, disk, request, NO_FAULTS).reply.Committed?
  {
    MutatedIsWellFormed(data.installed, disk, request);
    if request.Replace? { MergeDecides(Seen(disk).installed, data.installed, request.draft, key); }
  }

  lemma MutatedIsWellFormed(base: Installed, disk: Content, request: Request)
    requires Acceptable(disk, request)
    ensures
      var installed := Mutate(base, Seen(disk).installed, request).0;
      forall key :: key in installed ==> WellFormed(installed[key])
  {
    if request.Replace? {
      var current := Seen(disk).installed;
      var m := Merge(current, base, request.draft);
      forall key | key in m.installed ensures WellFormed(m.installed[key]) {
        MergeDecides(current, base, request.draft, key);
        assert Get(m.installed, key) == Some(m.installed[key]);
      }
    }
  }

  /**
   * Whatever is committed satisfies the schema, carries a revision that JavaScript counts exactly, and keeps the
   * file's format version.
   */
  lemma CommittedIsValid(data: StoreData, disk: Content, request: Request, faults: Faults)
    ensures var e := Update(data, disk, request, faults);
      e.reply.Committed? ==>
        && e.disk == Present(e.data) && e.data.version == Seen(disk).version
        && 0 < e.data.revision <= 9_007_199_254_740_991
        && forall key :: key in e.data.installed && e.data.installed[key].initTimeoutMs.Some? ==>
             e.data.installed[key].initTimeoutMs.value > 0.0
  {
    hide Mutate;
  }

  /**
   * A committed call raises the file's revision by exactly one, counting a damaged file as an empty one of
   * revision 0; any other call leaves the file alone, or has moved a damaged one away.
   */
  lemma RevisionCountsCommits(data: StoreData, disk: Content, request: Request, faults: Faults)
    ensures var e := Update(data, disk, request, faults);
      && (e.reply.Committed? ==> e.disk.Present? && e.disk.data.revision == Seen(disk).revision + 1)
      && (!e.reply.Committed? ==> e.disk == disk || (disk.Corrupt? && e.disk.Absent? && !Blind(e.reply)))
  {
  }

  /** `replaceInstalled` replaces a committed value only if the writer's base held exactly that value. */
  lemma NoLostUpdate(data: StoreData, disk: Content, draft: Installed, faults: Faults, key: string)
    requires !disk.Corrupt?
    ensures var after := Seen(Update(data, disk, Replace(draft), faults).disk).installed;
      Get(after, key) != Get(Seen(disk).installed, key) ==>
        && Get(Seen(disk).installed, key) == Get(data.installed, key)
        && Get(after, key) == Get(draft, key)
  {
    MergeDecides(Seen(disk).installed, data.installed, draft, key);
  }

  /** An add or a removal touches its own key only, and a guarded removal only the expected value. */
  lemma OtherKeysKept(data: StoreData, disk: Content, request: Request, faults: Faults, key: string)
    requires !disk.Corrupt? && !request.Replace?
    ensures var before, after := Seen(disk).installed, Seen(Update(data, disk, request, faults).disk).installed;
      Get(after, key) != Get(before, key) ==>
        && key == request.key
        && (request.Add? ==> Get(after, key) == Some(request.agent))
        && (request.Remove? ==> Get(after, key) == None && (request.expected.Some? ==> Get(before, key) == request.expected))
  {
  }

  // ---- Runs of many stores ----

  /** One file, the stores that share it, and every version the file has had. */
  datatype System = System(disk: Content, stores: map<nat, StoreData>, versions: seq<StoreData>)

  datatype Step =
    | Open(id: nat)
    | Reload(id: nat, readable: bool)
    | Call(id: nat, request: Request, faults: Faults)

  function Start(disk: Content): System {
    System(disk, map[], [Seen(disk)])
  }

  function Next(s: System, step: Step): System {
    match step
    case Open(id) => if id in s.stores then s else s.(stores := s.stores[id := EMPTY])
    case Reload(id, readable) =>
      if id in s.stores then s.(stores := s.stores[id := Load(s.disk, readable)]) else s
    case Call(id, request, faults) =>
      if id !in s.stores then s
      else
        var e := Update(s.stores[id], s.disk, request, faults);
        System(e.disk, s.stores[id := e.data], if e.reply.Committed? then s.versions + [e.data] else s.versions)
  }

  function Run(s: System, steps: seq<Step>): System
    decreases |steps|
  {
    if steps == [] then s else Run(Next(s, steps[0]), steps[1..])
  }

  /** A reload shows its store the file, or an empty store when the file is missing, damaged or unreadable; nothing else changes. */
  lemma ReloadShowsFile(s: System, id: nat, readable: bool)
    requires id in s.stores
    ensures
      var shown := if readable && s.disk.Present? then s.disk.data else StoreData(1, 0, map[]);
      Next(s, Reload(id, readable)) == s.(stores := s.stores[id := shown])
  {
  }

  /** A new store is empty until it loads, and opening one leaves the others alone. */
  lemma NewStoreIsEmpty(s: System, id: nat)
    ensures Next(s, Open(id)) == if id in s.stores then s else s.(stores := s.stores[id := StoreData(1, 0, map[])])
  {
  }

  /**
   * A store that replaces its data right after a reload meets no conflict, and the file then holds exactly its draft;
   * the call is a commit unless the file held that already.
   */
  lemma ReloadedStoreInstallsDraft(s: System, id: nat, draft: Installed)
    requires id in s.stores && Acceptable(s.disk, Replace(draft))
    ensures
      var loaded := Next(s, Reload(id, true));
      var done := Next(loaded, Call(id, Replace(draft), NO_FAULTS));
      && Merge(Seen(s.disk).installed, loaded.stores[id].installed, draft).conflicts == {}
      && Seen(done.disk).installed == draft && done.stores[id] == Seen(done.disk)
      && (if draft == Seen(s.disk).installed then done.versions == loaded.versions
          else done.versions == loaded.versions + [done.stores[id]])
  {
    var loaded, current := Next(s, Reload(id, true)), Seen(s.disk).installed;
    assert loaded.stores[id] == Seen(s.disk);
    UncontendedMergeInstallsDraft(current, draft);
    MutatedIsWellFormed(current, s.disk, Replace(draft));
    NothingChanged(current, draft);
    hide Merge;
  }

  lemma NothingChanged(base: Installed, draft: Installed)
    ensures Merge(base, base, draft).applied == {} <==> draft == base
  {
    if draft != base {
      if forall key :: Get(base, key) == Get(draft, key) { SameByKey(base, draft); }
      var key :| Get(base, key) != Get(draft, key);
      MergeDecides(base, base, draft, key);
    } else {
      forall key ensures key !in Merge(base, base, draft).applied {
        MergeDecides(base, base, draft, key);
      }
    }
    hide Merge;
  }

  /** The file is the newest version, versions are numbered in order, and a store holds one of them or nothing. */
  predicate Consistent(s: System) {
    && !s.disk.Corrupt?
    && s.versions != []
    && Seen(s.disk) == s.versions[|s.versions| - 1]
    && (forall i :: 0 <= i < |s.versions| ==> s.versions[i].revision == s.versions[0].revision + i)
    && (forall id :: id in s.stores ==> s.stores[id] == EMPTY || s.stores[id] in s.versions)
  }

  lemma NextKeepsConsistent(s: System, step: Step)
    requires Consistent(s)
    ensures Consistent(Next(s, step))
    ensures s.versions <= Next(s, step).versions
  {
    hide Merge, Schema, Mutate;
    if step.Call? && step.id in s.stores {
      var e := Update(s.stores[step.id], s.disk, step.request, step.faults);
      MemoryFollowsDisk(s.stores[step.id], s.disk, step.request, step.faults);
      RevisionCountsCommits(s.stores[step.id], s.disk, step.request, step.faults);
      var s' := Next(s, step);
      forall id | id in s'.stores ensures s'.stores[id] == EMPTY || s'.stores[id] in s'.versions {
        if id != step.id && s.stores[id] != EMPTY {
          var i :| 0 <= i < |s.versions| && s.versions[i] == s.stores[id];
          assert s'.versions[i] == s.stores[id];
        }
      }
    }
  }

  lemma {:induction false} RunKeepsConsistent(s: System, steps: seq<Step>)
    requires Consistent(s)
    ensures Consistent(Run(s, steps))
    ensures s.versions <= Run(s, steps).versions
    decreases |steps|
  {
    if steps != [] {
      NextKeepsConsistent(s, steps[0]);
      RunKeepsConsistent(Next(s, steps[0]), steps[1..]);
    }
  }

  /**
   * In every run of any number of stores over a file that starts intact: the file's revision
   * is its first one plus the number of commits, and two stores that hold data of the same
   * revision hold the same data.
   */
  lemma RevisionsIdentifyVersions(disk: Content, steps: seq<Step>, a: nat, b: nat)
    requires !disk.Corrupt?
    ensures var s := Run(Start(disk), steps);
      && s.versions != [] && s.versions[0] == Seen(disk)
      && Seen(s.disk).revision == Seen(disk).revision + |s.versions| - 1
      && ((a in s.stores && b in s.stores && s.stores[a] != EMPTY && s.stores[b] != EMPTY
           && s.stores[a].revision == s.stores[b].revision) ==> s.stores[a] == s.stores[b])
  {
    RunKeepsConsistent(Start(disk), steps);
    assert Start(disk).versions[0] == Seen(disk);
  }

  /** Each version differs from the one before only in values whose writer saw what it replaced. */
  ghost predicate Replaced(before: Installed, after: Installed, base: Installed, draft: Installed) {
    forall key :: Get(after, key) != Get(before, key) ==>
      Get(before, key) == Get(base, key) && Get(after, key) == Get(draft, key)
  }

  /** No run loses an update: a reconciliation overwrites no value that its store had not loaded. */
  lemma RunsLoseNoUpdate(disk: Content, steps: seq<Step>, id: nat, draft: Installed, faults: Faults)
    requires !disk.Corrupt? && id in Run(Start(disk), steps).stores
    ensures
      var s := Run(Start(disk), steps);
      var s' := Next(s, Call(id, Replace(draft), faults));
      && Replaced(Seen(s.disk).installed, Seen(s'.disk).installed, s.stores[id].installed, draft)
      && (s.stores[id] == EMPTY || s.stores[id] in s.versions)
  {
    RunKeepsConsistent(Start(disk), steps);
    var s := Run(Start(disk), steps);
    forall key {
      NoLostUpdate(s.stores[id], s.disk, draft, faults, key);
    }
  }
}
