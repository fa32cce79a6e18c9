/**
 * The tool call accumulator: entries are objects, handed out to callers and updated in
 * place until a new call of the same id supersedes them.
 */
module ToolState {
  import opened Wrappers
  import opened ToolEvents

  class ToolEntry {
    const id: string
    const name: string
    const kind: string
    var rawInput: Option<Payload>
    var content: Option<string>
    var status: string
    var viewerLinks: Option<ViewerLinks>
    var diffStats: Option<DiffStats>
    const displaySummary: Option<string>
    const displayTitle: Option<string>
    const displayKind: Option<string>
    const isNoise: bool

    constructor (noise: Noise, meta: ToolCallMeta, kind: string, rawInput: Option<Payload>)
      ensures View() == Base(noise, meta, kind, rawInput) && id == meta.id
    {
      this.id, this.name, this.kind, this.rawInput := meta.id, meta.name, kind, rawInput;
      this.content, this.diffStats := None, None;
      this.status := if meta.status.Some? then meta.status.value else "running";
      this.viewerLinks := meta.viewerLinks;
      this.displaySummary, this.displayTitle := meta.displaySummary, meta.displayTitle;
      this.displayKind, this.isNoise := meta.displayKind, noise(meta.name, kind, rawInput);
    }

    function View(): Entry
      reads this
    {
      Entry(id, name, kind, rawInput, content, status, viewerLinks, diffStats,
            displaySummary, displayTitle, displayKind, isNoise)
    }
  }

  class ToolStateMap {
    const noise: Noise
    var entries: map<string, ToolEntry>
    var pendingUpdates: map<string, Update>

    /** The events so far, for the specification only. */
    ghost var log: seq<Event>

    constructor (noise: Noise)
      ensures Valid() && log == [] && this.noise == noise
    {
      this.noise, this.entries, this.pendingUpdates, this.log := noise, map[], map[], [];
    }

    function State(): State
      reads this`entries, this`pendingUpdates, entries.Values
    {
      ToolEvents.State(map id | id in entries :: entries[id].View(), pendingUpdates)
    }

    /** Every id has an object of its own, and the objects hold what the log says. */
    ghost predicate Valid()
      reads this, entries.Values
    {
      && (forall a, b :: a in entries && b in entries && a != b ==> entries[a] != entries[b])
      && State() == Run(noise, log)
    }

    /** The object stored under `id` is new; the one it supersedes, like all others, is left alone. */
    method Upsert(meta: ToolCallMeta, kind: string, rawInput: Option<Payload>) returns (entry: ToolEntry)
      requires Valid()
      modifies this
      ensures Valid() && log == old(log) + [Called(meta, kind, rawInput)]
      ensures fresh(entry) && entries == old(entries)[meta.id := entry]
    {
      hide Base, Apply, Run, Step;
      CallStep(noise, State(), meta, kind, rawInput);
      entry := StoreEntry(meta, kind, rawInput);
      log := log + [Called(meta, kind, rawInput)];
      RunOneMore(noise, old(log), Called(meta, kind, rawInput));
    }

    method StoreEntry(meta: ToolCallMeta, kind: string, rawInput: Option<Payload>) returns (entry: ToolEntry)
      modifies this`entries, this`pendingUpdates
      ensures fresh(entry) && entries == old(entries)[meta.id := entry]
      ensures
        var base, before := Base(noise, meta, kind, rawInput), old(State());
        State() == ToolEvents.State(
          before.entries[meta.id := if meta.id in before.pendingUpdates then Apply(base, before.pendingUpdates[meta.id])
                                    else base],
          before.pendingUpdates - {meta.id})
    {
      hide Base, Apply;
      ghost var before := State();
      entry := new ToolEntry(noise, meta, kind, rawInput);
      entries := entries[meta.id := entry];
      ApplyPending(entry);
      assert State().entries == before.entries[meta.id := entry.View()];
    }

    /** Apply the update that arrived before the call, if there is one. */
    method ApplyPending(entry: ToolEntry)
      modifies this`pendingUpdates, entry
      ensures pendingUpdates == old(pendingUpdates) - {entry.id}
      ensures entry.View() ==
        if entry.id in old(pendingUpdates) then Apply(old(entry.View()), old(pendingUpdates)[entry.id])
        else old(entry.View())
    {
      hide Apply;
      if entry.id in pendingUpdates {
        var pending := pendingUpdates[entry.id];
        pendingUpdates := pendingUpdates - {entry.id};
        ApplyUpdate(entry, pending);
      }
    }

    /** Updates the stored object in place, so whoever holds it sees the update; no other object changes. */
    method Merge(id: string, update: Update) returns (entry: ToolEntry?)
      requires Valid()
      modifies this, if id in entries then {entries[id]} else {}
      ensures Valid() && log == old(log) + [Updated(id, update)]
      ensures entries == old(entries)
      ensures entry == if id in entries then entries[id] else null
    {
      hide Apply, Run;
      if id in entries {
        entry := entries[id];
        UpdateStored(id, update);
      } else {
        entry := null;
        pendingUpdates := pendingUpdates[id := update];
      }
      log := log + [Updated(id, update)];
      RunOneMore(noise, old(log), Updated(id, update));
    }

    method UpdateStored(id: string, update: Update)
      requires Valid() && id in entries
      modifies entries[id]
      ensures State() == old(State()).(
        entries := old(State()).entries[id := Apply(old(State()).entries[id], update)])
    {
      hide Apply, Run;
      ghost var before := State();
      ApplyUpdate(entries[id], update);
      assert State().entries == before.entries[id := entries[id].View()];
    }

    method ApplyUpdate(entry: ToolEntry, update: Update)
      modifies entry
      ensures entry.View() == Apply(old(entry.View()), update)
    {
      entry.status := update.status;
      if update.rawInput.Some? { entry.rawInput := update.rawInput; }
      if update.content.Some? { entry.content := update.content.value; }
      if update.viewerLinks.Some? { entry.viewerLinks := update.viewerLinks; }
      if update.diffStats.Some? { entry.diffStats := update.diffStats; }
    }

    /** What a caller reads is what the turn's log adds up to. */
    method Get(id: string) returns (entry: ToolEntry?)
      requires Valid()
      ensures entry == if id in entries then entries[id] else null
      ensures (if entry == null then None else Some(entry.View())) == Final(noise, Turn(log), id)
    {
      EntryFollowsLog(noise, log, id);
      entry := if id in entries then entries[id] else null;
      assert Lookup(State().entries, id) == if entry == null then None else Some(entry.View());
    }

    method Clear()
      requires Valid()
      modifies this
      ensures Valid() && log == old(log) + [Cleared]
      ensures entries == map[] && pendingUpdates == map[]
    {
      entries, pendingUpdates := map[], map[];
      log := log + [Cleared];
      RunOneMore(noise, old(log), Cleared);
    }
  }

  lemma CallStep(noise: Noise, s: State, meta: ToolCallMeta, kind: string, rawInput: Option<Payload>)
    ensures
      var base := Base(noise, meta, kind, rawInput);
      Step(noise, s, Called(meta, kind, rawInput))
        == State(s.entries[meta.id := if meta.id in s.pendingUpdates then Apply(base, s.pendingUpdates[meta.id]) else base],
                 s.pendingUpdates - {meta.id})
  {
    if meta.id !in s.pendingUpdates { assert s.pendingUpdates - {meta.id} == s.pendingUpdates; }
  }

  lemma RunOneMore(noise: Noise, log: seq<Event>, e: Event)
    ensures Run(noise, log + [e]) == Step(noise, Run(noise, log), e)
  {
    assert (log + [e])[..|log|] == log;
  }
}
