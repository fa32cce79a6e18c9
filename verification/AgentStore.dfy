/**
 * The agent store as the class that other code uses: any number of objects over one
 * file.  Each operation is tied to the function of `StoreMerge` that says what it does.
 */
module AgentStorage {
  import opened Wrappers
  import opened InstalledAgents
  import M = StoreMerge

  /** The file all stores share. */
  class File {
    var content: M.Content

    constructor ()
      ensures content == M.Absent
    {
      content := M.Absent;
    }
  }

  datatype MergeResult = MergeResult(appliedKeys: set<string>, conflictKeys: set<string>, revision: nat)

  class AgentStore {
    var data: M.StoreData
    const file: File

    constructor (file: File)
      ensures data == M.EMPTY && this.file == file
    {
      this.data, this.file := M.EMPTY, file;
    }

    method Load(readable: bool)
      modifies this
      ensures data == M.Load(file.content, readable)
      ensures data == if readable && file.content.Present? then file.content.data else M.StoreData(1, 0, map[])
    {
      if file.content.Present? && readable {
        data := file.content.data;
      } else {
        data := M.EMPTY;
      }
    }

    function GetInstalled(): (installed: Installed)
      reads this
      ensures forall key :: Get(installed, key) == GetAgent(key)
    {
      data.installed
    }

    function GetAgent(key: string): Option<InstalledAgent>
      reads this
    {
      Get(data.installed, key)
    }

    /** The keys of base or draft whose values differ. */
    method FindChangedKeys(base: Installed, draft: Installed) returns (changedKeys: set<string>)
      ensures changedKeys == M.ChangedKeys(base, draft)
    {
      changedKeys := base.Keys + draft.Keys;
      var todo := changedKeys;
      while todo != {}
        invariant todo <= changedKeys <= base.Keys + draft.Keys
        invariant changedKeys == todo + (M.ChangedKeys(base, draft) - todo)
        decreases todo
      {
        var key :| key in todo;
        todo := todo - {key};
        if Get(base, key) == Get(draft, key) { changedKeys := changedKeys - {key}; }
      }
    }

    /** Apply the draft key by key to the collection just read, in whatever order the keys come. */
    method MergeDraft(current: Installed, base: Installed, draft: Installed, changedKeys: set<string>)
      returns (installed: Installed, appliedKeys: set<string>, conflictKeys: set<string>)
      requires changedKeys == M.ChangedKeys(base, draft)
      ensures M.Merged(installed, appliedKeys, conflictKeys) == M.Merge(current, base, draft)
    {
      installed, appliedKeys, conflictKeys := current, {}, {};
      ghost var goal := M.Merge(current, base, draft);
      var todo := changedKeys;
      while todo != {}
        invariant todo <= changedKeys
        invariant appliedKeys == goal.applied - todo && conflictKeys == goal.conflicts - todo
        invariant forall key ::
          Get(installed, key) == Get(if key in todo then current else goal.installed, key)
        decreases todo
      {
        var key :| key in todo;
        M.MergeDecides(current, base, draft, key);
        assert Get(installed, key) == Get(current, key);
        todo := todo - {key};
        if Get(installed, key) != Get(base, key) {
          conflictKeys := conflictKeys + {key};
        } else {
          if key in draft {
            installed := installed[key := draft[key]];
          } else {
            installed := installed - {key};
          }
          appliedKeys := appliedKeys + {key};
        }
      }
      SameByKey(installed, goal.installed);
    }

    /** The closure each operation passes to `updateUnderLock`; the key sets are those of a merge. */
    method Mutate(request: M.Request, current: Installed)
      returns (installed: Installed, changed: bool, appliedKeys: set<string>, conflictKeys: set<string>)
      ensures (installed, changed) == M.Mutate(data.installed, current, request)
      ensures request.Replace? ==>
        M.Merged(installed, appliedKeys, conflictKeys) == M.Merge(current, data.installed, request.draft)
    {
      appliedKeys, conflictKeys := {}, {};
      match request {
        case Add(key, agent) =>
          installed, changed := current[key := agent], true;
        case Remove(key, expected) =>
          installed, changed := current, false;
          if key in current && (expected.None? || current[key] == expected.value) {
            installed, changed := current - {key}, true;
          }
        case Replace(draft) =>
          var changedKeys := FindChangedKeys(data.installed, draft);
          installed, appliedKeys, conflictKeys := MergeDraft(current, data.installed, draft, changedKeys);
          changed := appliedKeys != {};
      }
    }

    method UpdateUnderLock(request: M.Request, faults: M.Faults)
      returns (reply: M.Reply, appliedKeys: set<string>, conflictKeys: set<string>)
      modifies this, file
      ensures M.Effect(data, file.content, reply)
        == M.Update(old(data), old(file.content), request, faults)
      ensures request.Replace? && !M.Blind(reply) ==>
        var m := M.Merge(M.Seen(old(file.content)).installed, old(data).installed, request.draft);
        appliedKeys == m.applied && conflictKeys == m.conflicts
    {
      hide M.Mutate, M.Merge, M.Schema;
      appliedKeys, conflictKeys := {}, {};
      if faults.locked {
        reply := M.Busy;
        return;
      }
      if !file.content.Absent? && !faults.readable {
        reply := M.Unreadable;
        return;
      }
      var current := M.Seen(file.content);
      if file.content.Corrupt? {
        if !faults.movable {
          reply := M.NotQuarantined;
          return;
        }
        file.content := M.Absent;
      }
      var installed, changed;
      installed, changed, appliedKeys, conflictKeys := Mutate(request, current.installed);
      data := current;
      var next := M.StoreData(current.version, current.revision + 1, installed);
      if !changed {
        reply := M.Unchanged;
      } else if next.revision > M.MAX_SAFE_INTEGER {
        reply := M.Exhausted;
      } else if !SchemaHolds(next) {
        reply := M.Malformed;
      } else if !faults.writable {
        reply := M.NotSaved;
      } else {
        file.content := M.Present(next);
        data := next;
        reply := M.Committed;
      }
    }

    static predicate SchemaHolds(data: M.StoreData)
      ensures SchemaHolds(data) == M.Schema(data)
    {
      forall key | key in data.installed.Keys :: WellFormed(data.installed[key])
    }

    method AddAgent(key: string, agent: InstalledAgent, faults: M.Faults) returns (reply: M.Reply)
      modifies this, file
      ensures M.Effect(data, file.content, reply)
        == M.Update(old(data), old(file.content), M.Add(key, agent), faults)
      ensures reply.Committed? ==> GetAgent(key) == Some(agent)
    {
      var applied, conflicts;
      reply, applied, conflicts := UpdateUnderLock(M.Add(key, agent), faults);
    }

    method RemoveAgent(key: string, expected: Option<InstalledAgent>, faults: M.Faults)
      returns (removed: bool, reply: M.Reply)
      modifies this, file
      ensures M.Effect(data, file.content, reply)
        == M.Update(old(data), old(file.content), M.Remove(key, expected), faults)
      ensures removed == reply.Committed?
      ensures removed ==> GetAgent(key) == None
    {
      var applied, conflicts;
      reply, applied, conflicts := UpdateUnderLock(M.Remove(key, expected), faults);
      removed := reply.Committed?;
    }

    /** The key sets are those of the merge, unless the call could not look at the file. */
    method ReplaceInstalled(draft: Installed, faults: M.Faults) returns (result: MergeResult, reply: M.Reply)
      modifies this, file
      ensures M.Effect(data, file.content, reply)
        == M.Update(old(data), old(file.content), M.Replace(draft), faults)
      ensures !M.Blind(reply) ==>
        var m := M.Merge(M.Seen(old(file.content)).installed, old(data).installed, draft);
        result == MergeResult(m.applied, m.conflicts, data.revision)
      ensures reply.Committed? ==> forall key :: key in result.appliedKeys ==> GetAgent(key) == Get(draft, key)
    {
      ghost var base, current := data.installed, M.Seen(file.content).installed;
      var appliedKeys, conflictKeys;
      reply, appliedKeys, conflictKeys := UpdateUnderLock(M.Replace(draft), faults);
      result := MergeResult(appliedKeys, conflictKeys, data.revision);
      forall key | reply.Committed? && key in appliedKeys ensures GetAgent(key) == Get(draft, key) {
        M.MergeDecides(current, base, draft, key);
      }
    }
  }
}
