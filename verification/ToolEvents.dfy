/**
 * What the tool events of one turn add up to, whatever order they arrive in.
 */
module ToolEvents {
  import opened Wrappers

  /** Agent-supplied data that the accumulator only passes on. */
  type Payload = string

  datatype ViewerLinks = ViewerLinks(file: Option<string>, diff: Option<string>)

  datatype DiffStats = DiffStats(added: nat, removed: nat)

  datatype ToolCallMeta = ToolCallMeta(
    id: string,
    name: string,
    status: Option<string>,
    viewerLinks: Option<ViewerLinks>,
    displaySummary: Option<string>,
    displayTitle: Option<string>,
    displayKind: Option<string>)

  /** `None` stands for an undefined property; `Some(None)` is a content set to null. */
  datatype Update = Update(
    status: string,
    rawInput: Option<Payload>,
    content: Option<Option<string>>,
    viewerLinks: Option<ViewerLinks>,
    diffStats: Option<DiffStats>)

  datatype Entry = Entry(
    id: string,
    name: string,
    kind: string,
    rawInput: Option<Payload>,
    content: Option<string>,
    status: string,
    viewerLinks: Option<ViewerLinks>,
    diffStats: Option<DiffStats>,
    displaySummary: Option<string>,
    displayTitle: Option<string>,
    displayKind: Option<string>,
    isNoise: bool)

  /** Whether a call is hidden at low verbosity, judged by name, kind and input. */
  type Noise = (string, string, Option<Payload>) -> bool

  datatype Event =
    | Called(meta: ToolCallMeta, kind: string, rawInput: Option<Payload>)
    | Updated(id: string, update: Update)
    | Cleared

  datatype State = State(entries: map<string, Entry>, pendingUpdates: map<string, Update>)

  const EMPTY := State(map[], map[])

  function Base(noise: Noise, meta: ToolCallMeta, kind: string, rawInput: Option<Payload>): Entry {
    Entry(meta.id, meta.name, kind, rawInput, None, if meta.status.Some? then meta.status.value else "running",
          meta.viewerLinks, None, meta.displaySummary, meta.displayTitle, meta.displayKind,
          noise(meta.name, kind, rawInput))
  }

  function Apply(entry: Entry, u: Update): Entry {
    entry.(
      status := u.status,
      rawInput := if u.rawInput.Some? then u.rawInput else entry.rawInput,
      content := if u.content.Some? then u.content.value else entry.content,
      viewerLinks := if u.viewerLinks.Some? then u.viewerLinks else entry.viewerLinks,
      diffStats := if u.diffStats.Some? then u.diffStats else entry.diffStats)
  }

  function Step(noise: Noise, s: State, e: Event): State {
    match e
    case Called(meta, kind, rawInput) =>
      var base := Base(noise, meta, kind, rawInput);
      if meta.id in s.pendingUpdates then
        State(s.entries[meta.id := Apply(base, s.pendingUpdates[meta.id])], s.pendingUpdates - {meta.id})
      else s.(entries := s.entries[meta.id := base])
    case Updated(id, update) =>
      if id in s.entries then s.(entries := s.entries[id := Apply(s.entries[id], update)])
      else s.(pendingUpdates := s.pendingUpdates[id := update])
    case Cleared => EMPTY
  }

  function Run(noise: Noise, log: seq<Event>): State {
    if log == [] then EMPTY else Step(noise, Run(noise, log[..|log| - 1]), log[|log| - 1])
  }

  // ---- The same, read off the log ----

  /** The events of the current turn. */
  function Turn(log: seq<Event>): seq<Event> {
    if log == [] then []
    else
      var last := log[|log| - 1];
      if last.Cleared? then [] else Turn(log[..|log| - 1]) + [last]
  }

  predicate Calls(e: Event, id: string) {
    e.Called? && e.meta.id == id
  }

  /** Where `id` was called last, or -1. */
  function LastCall(turn: seq<Event>, id: string): (r: int)
    ensures -1 <= r < |turn|
    ensures r >= 0 ==> Calls(turn[r], id)
    ensures forall i :: r < i < |turn| ==> !Calls(turn[i], id)
  {
    if turn == [] then -1
    else if Calls(turn[|turn| - 1], id) then |turn| - 1
    else LastCall(turn[..|turn| - 1], id)
  }

  /** The updates of `id`, in order. */
  function UpdatesOf(turn: seq<Event>, id: string): seq<Update> {
    if turn == [] then []
    else
      var e := turn[|turn| - 1];
      var earlier := UpdatesOf(turn[..|turn| - 1], id);
      if e.Updated? && e.id == id then earlier + [e.update] else earlier
  }

  function ApplyAll(entry: Entry, updates: seq<Update>): Entry {
    if updates == [] then entry else Apply(ApplyAll(entry, updates[..|updates| - 1]), updates[|updates| - 1])
  }

  /** The entry as its last call made it: only a first call finds the newest of the updates that came too early. */
  function Started(noise: Noise, turn: seq<Event>, id: string): Entry
    requires LastCall(turn, id) >= 0
  {
    var c := LastCall(turn, id);
    var base := Base(noise, turn[c].meta, turn[c].kind, turn[c].rawInput);
    var early := UpdatesOf(turn[..c], id);
    if LastCall(turn[..c], id) < 0 && early != [] then Apply(base, early[|early| - 1]) else base
  }

  /** The entry a turn leaves for `id`. */
  function Final(noise: Noise, turn: seq<Event>, id: string): Option<Entry> {
    var c := LastCall(turn, id);
    if c < 0 then None else Some(ApplyAll(Started(noise, turn, id), UpdatesOf(turn[c + 1..], id)))
  }

  /** The update that still waits for its call. */
  function Waiting(turn: seq<Event>, id: string): Option<Update> {
    var updates := UpdatesOf(turn, id);
    if LastCall(turn, id) >= 0 || updates == [] then None else Some(updates[|updates| - 1])
  }

  function Lookup<V>(m: map<string, V>, id: string): Option<V> {
    if id in m then Some(m[id]) else None
  }

  lemma TurnGrows(noise: Noise, turn: seq<Event>, e: Event, id: string)
    requires !e.Cleared?
    ensures
      var turn' := turn + [e];
      && UpdatesOf(turn', id)
         == UpdatesOf(turn, id) + (if e.Updated? && e.id == id then [e.update] else [])
      && LastCall(turn', id) == (if Calls(e, id) then |turn| else LastCall(turn, id))
  {
    assert (turn + [e])[..|turn|] == turn;
  }

  lemma FinalAfterCall(noise: Noise, turn: seq<Event>, e: Event)
    requires e.Called?
    ensures
      var id := e.meta.id;
      var base := Base(noise, e.meta, e.kind, e.rawInput);
      Final(noise, turn + [e], id)
        == Some(if Waiting(turn, id).Some? then Apply(base, Waiting(turn, id).value) else base)
  {
    var turn' := turn + [e];
    TurnGrows(noise, turn, e, e.meta.id);
    assert turn'[..|turn|] == turn && turn'[|turn| + 1..] == [];
  }

  lemma FinalAfterUpdate(noise: Noise, turn: seq<Event>, e: Event, id: string)
    requires !e.Cleared? && !Calls(e, id)
    ensures
      var mine := e.Updated? && e.id == id;
      Final(noise, turn + [e], id) == match Final(noise, turn, id)
        case None => None
        case Some(entry) => Some(if mine then Apply(entry, e.update) else entry)
  {
    var turn' := turn + [e];
    TurnGrows(noise, turn, e, id);
    var c := LastCall(turn, id);
    if c >= 0 {
      assert turn'[..c] == turn[..c] && turn'[c + 1..] == turn[c + 1..] + [e] && turn'[c] == turn[c];
      TurnGrows(noise, turn[c + 1..], e, id);
      assert Started(noise, turn', id) == Started(noise, turn, id) by { hide Base, Apply, UpdatesOf; }
      hide Started, Apply, LastCall, UpdatesOf;
      var later := UpdatesOf(turn[c + 1..], id);
      if e.Updated? && e.id == id { assert (later + [e.update])[..|later|] == later; }
    }
  }

  /** What one event does to one id. */
  lemma StepLookup(noise: Noise, s: State, e: Event, id: string)
    requires !(id in s.entries && id in s.pendingUpdates)
    ensures
      var entry, waiting := Lookup(s.entries, id), Lookup(s.pendingUpdates, id);
      var s' := Step(noise, s, e);
      var mine := e.Updated? && e.id == id;
      && Lookup(s'.entries, id) ==
           (if e.Cleared? then None
            else if Calls(e, id) then
              var base := Base(noise, e.meta, e.kind, e.rawInput);
              Some(if waiting.Some? then Apply(base, waiting.value) else base)
            else if mine && entry.Some? then Some(Apply(entry.value, e.update))
            else entry)
      && Lookup(s'.pendingUpdates, id) ==
           (if e.Cleared? || Calls(e, id) then None
            else if mine && entry.None? then Some(e.update)
            else waiting)
  {
    hide Base, Apply;
  }

  lemma WaitingAfter(noise: Noise, turn: seq<Event>, e: Event, id: string)
    requires !e.Cleared?
    ensures Waiting(turn + [e], id) ==
      if Calls(e, id) then None
      else if e.Updated? && e.id == id && Final(noise, turn, id).None? then Some(e.update)
      else Waiting(turn, id)
  {
    TurnGrows(noise, turn, e, id);
    hide LastCall, UpdatesOf, Started, ApplyAll;
  }

  /**
   * For every log and every id: the entry is its last call's, then the newest early update if
   * that was the first call of the turn, then every later update in order; before any call the
   * newest update waits.
   */
  lemma {:induction false} EntryFollowsLog(noise: Noise, log: seq<Event>, id: string)
    ensures Lookup(Run(noise, log).entries, id) == Final(noise, Turn(log), id)
    ensures Lookup(Run(noise, log).pendingUpdates, id) == Waiting(Turn(log), id)
  {
    if log != [] {
      var before, e := log[..|log| - 1], log[|log| - 1];
      EntryFollowsLog(noise, before, id);
      StepLookup(noise, Run(noise, before), e, id);
      if !e.Cleared? {
        var turn := Turn(before);
        WaitingAfter(noise, turn, e, id);
        if Calls(e, id) { FinalAfterCall(noise, turn, e); } else { FinalAfterUpdate(noise, turn, e, id); }
        hide Final, Base, Apply, Step, Waiting;
      }
    }
  }

  /** No id is both an entry and waiting, in any state a log can reach. */
  lemma NeverBoth(noise: Noise, log: seq<Event>, id: string)
    ensures !(id in Run(noise, log).entries && id in Run(noise, log).pendingUpdates)
  {
    EntryFollowsLog(noise, log, id);
  }

  /**
   * A call of an id that nothing waits for makes an entry with the call's own data: no content, no diff statistics, and
   * "running" unless the call says otherwise. Whether it is noise is judged by its name, kind and input.
   */
  lemma CallMakesEntry(noise: Noise, s: State, meta: ToolCallMeta, kind: string, rawInput: Option<Payload>)
    requires meta.id !in s.pendingUpdates
    ensures
      var t := Step(noise, s, Called(meta, kind, rawInput));
      && meta.id in t.entries && t.pendingUpdates == s.pendingUpdates
      && t.entries == s.entries[meta.id := t.entries[meta.id]]
      && var e := t.entries[meta.id];
      && e.id == meta.id && e.name == meta.name && e.kind == kind && e.rawInput == rawInput
      && e.content == None && e.diffStats == None && e.viewerLinks == meta.viewerLinks
      && e.status == (if meta.status == None then "running" else meta.status.value)
      && e.displaySummary == meta.displaySummary && e.displayTitle == meta.displayTitle
      && e.displayKind == meta.displayKind
      && e.isNoise == noise(meta.name, kind, rawInput)
  {
  }

  // ---- Fields ----

  /** `value` is what the last update that defines the field says, or else `start`. */
  ghost predicate LastDefined<V>(updates: seq<Update>, field: Update -> Option<V>, start: V, value: V) {
    || (value == start && UndefinedFrom(updates, field, 0))
    || exists i :: 0 <= i < |updates| && field(updates[i]) == Some(value) && UndefinedFrom(updates, field, i + 1)
  }

  predicate UndefinedFrom<V>(updates: seq<Update>, field: Update -> Option<V>, from: nat) {
    forall i :: from <= i < |updates| ==> field(updates[i]).None?
  }

  lemma DefinedOnceMore<V>(updates: seq<Update>, field: Update -> Option<V>, start: V, value: V, u: Update)
    requires LastDefined(updates, field, start, value)
    ensures LastDefined(updates + [u], field, start, if field(u).Some? then field(u).value else value)
  {
    var all := updates + [u];
    if field(u).Some? {
      assert field(all[|updates|]) == field(u);
    } else if i :| 0 <= i < |updates| && field(updates[i]) == Some(value) && UndefinedFrom(updates, field, i + 1) {
      assert field(all[i]) == Some(value) && UndefinedFrom(all, field, i + 1);
    }
  }

  function Status(u: Update): Option<string> {
    Some(u.status)
  }

  function RawInput(u: Update): Option<Option<Payload>> {
    if u.rawInput.Some? then Some(u.rawInput) else None
  }

  function Content(u: Update): Option<Option<string>> {
    u.content
  }

  function Links(u: Update): Option<Option<ViewerLinks>> {
    if u.viewerLinks.Some? then Some(u.viewerLinks) else None
  }

  function Stats(u: Update): Option<Option<DiffStats>> {
    if u.diffStats.Some? then Some(u.diffStats) else None
  }

  /** `get` is what updates set through `field`. */
  ghost predicate Carries<V>(field: Update -> Option<V>, get: Entry -> V) {
    forall e, u :: get(Apply(e, u)) == if field(u).Some? then field(u).value else get(e)
  }

  lemma {:induction false} FieldHoldsLastDefined<V>(entry: Entry, updates: seq<Update>, field: Update -> Option<V>,
                                                    get: Entry -> V)
    requires Carries(field, get)
    ensures LastDefined(updates, field, get(entry), get(ApplyAll(entry, updates)))
  {
    hide Apply, LastDefined;
    if updates == [] {
      NothingDefined(field, get(entry));
    } else {
      var before, u := updates[..|updates| - 1], updates[|updates| - 1];
      FieldHoldsLastDefined(entry, before, field, get);
      assert before + [u] == updates;
      DefinedOnceMore(before, field, get(entry), get(ApplyAll(entry, before)), u);
    }
  }

  lemma NothingDefined<V>(field: Update -> Option<V>, start: V)
    ensures LastDefined([], field, start, start)
  {
  }

  lemma {:induction false} UpdatesKeepTheRest(entry: Entry, updates: seq<Update>)
    ensures
      var final := ApplyAll(entry, updates);
      final.(status := entry.status, rawInput := entry.rawInput, content := entry.content,
             viewerLinks := entry.viewerLinks, diffStats := entry.diffStats) == entry
  {
    if updates != [] { UpdatesKeepTheRest(entry, updates[..|updates| - 1]); }
  }

  /** Each field holds its last defined value, and what updates cannot carry stays as the call set it. */
  lemma FieldsHoldLastDefined(entry: Entry, updates: seq<Update>)
    ensures
      var final := ApplyAll(entry, updates);
      && LastDefined(updates, Status, entry.status, final.status)
      && LastDefined(updates, RawInput, entry.rawInput, final.rawInput)
      && LastDefined(updates, Content, entry.content, final.content)
      && LastDefined(updates, Links, entry.viewerLinks, final.viewerLinks)
      && LastDefined(updates, Stats, entry.diffStats, final.diffStats)
      && final.(status := entry.status, rawInput := entry.rawInput, content := entry.content,
                viewerLinks := entry.viewerLinks, diffStats := entry.diffStats) == entry
  {
    FieldHoldsLastDefined(entry, updates, Status, (e: Entry) => e.status);
    FieldHoldsLastDefined(entry, updates, RawInput, (e: Entry) => e.rawInput);
    FieldHoldsLastDefined(entry, updates, Content, (e: Entry) => e.content);
    FieldHoldsLastDefined(entry, updates, Links, (e: Entry) => e.viewerLinks);
    FieldHoldsLastDefined(entry, updates, Stats, (e: Entry) => e.diffStats);
    UpdatesKeepTheRest(entry, updates);
    hide LastDefined, ApplyAll;
  }

  // ---- Out of order ----

  /** Neither called nor updated in this turn. */
  predicate Unknown(s: State, id: string) {
    id !in s.entries && id !in s.pendingUpdates
  }

  /** In any state, one update that arrives before its call gives the same state as one that arrives in time. */
  lemma OneEarlyUpdateIsHarmless(noise: Noise, s: State, call: Event, u: Update)
    requires call.Called? && Unknown(s, call.meta.id)
    ensures
      var update := Updated(call.meta.id, u);
      Step(noise, Step(noise, s, update), call) == Step(noise, Step(noise, s, call), update)
  {
    hide Base, Apply;
    var id := call.meta.id;
    var base := Base(noise, call.meta, call.kind, call.rawInput);
    assert s.pendingUpdates[id := u] - {id} == s.pendingUpdates;
    assert s.entries[id := base][id := Apply(base, u)] == s.entries[id := Apply(base, u)];
  }

  /** What two updates that arrive before their call leave: only the second is applied. */
  lemma SecondEarlyUpdateWins(noise: Noise, s: State, call: Event, first: Update, second: Update)
    requires call.Called? && Unknown(s, call.meta.id)
    ensures
      var id := call.meta.id;
      var base := Base(noise, call.meta, call.kind, call.rawInput);
      && Step(noise, Step(noise, Step(noise, s, Updated(id, first)), Updated(id, second)), call)
         == s.(entries := s.entries[id := Apply(base, second)])
      && Step(noise, Step(noise, Step(noise, s, call), Updated(id, first)), Updated(id, second))
         == s.(entries := s.entries[id := Apply(Apply(base, first), second)])
  {
    hide Base, Apply;
    var id := call.meta.id;
    var base := Base(noise, call.meta, call.kind, call.rawInput);
    assert s.pendingUpdates[id := first][id := second] - {id} == s.pendingUpdates;
    assert s.entries[id := base][id := Apply(base, first)] == s.entries[id := Apply(base, first)];
    assert s.entries[id := Apply(base, first)][id := Apply(Apply(base, first), second)]
      == s.entries[id := Apply(Apply(base, first), second)];
  }

  /** The first of two updates says nothing that the second does not say and the call's entry does not say already. */
  predicate FirstIsRedundant(base: Entry, first: Update, second: Update) {
    && (first.rawInput.Some? && second.rawInput.None? ==> first.rawInput == base.rawInput)
    && (first.content.Some? && second.content.None? ==> first.content.value == base.content)
    && (first.viewerLinks.Some? && second.viewerLinks.None? ==> first.viewerLinks == base.viewerLinks)
    && (first.diffStats.Some? && second.diffStats.None? ==> first.diffStats == base.diffStats)
  }

  /**
   * Two updates that arrive before their call leave the state they would have left after it exactly when the
   * first is redundant; otherwise what it said is lost.
   */
  lemma EarlierUpdateMatters(noise: Noise, s: State, call: Event, first: Update, second: Update)
    requires call.Called? && Unknown(s, call.meta.id)
    ensures
      var id := call.meta.id;
      Step(noise, Step(noise, Step(noise, s, Updated(id, first)), Updated(id, second)), call)
        == Step(noise, Step(noise, Step(noise, s, call), Updated(id, first)), Updated(id, second))
      <==> FirstIsRedundant(Base(noise, call.meta, call.kind, call.rawInput), first, second)
  {
    var id := call.meta.id;
    var base := Base(noise, call.meta, call.kind, call.rawInput);
    SecondEarlyUpdateWins(noise, s, call, first, second);
    RedundantMeansSameEntry(base, first, second);
    hide Step, Apply, FirstIsRedundant;
    var one, two := s.entries[id := Apply(base, second)], s.entries[id := Apply(Apply(base, first), second)];
    assert one[id] == Apply(base, second) && two[id] == Apply(Apply(base, first), second);
  }

  lemma RedundantMeansSameEntry(base: Entry, first: Update, second: Update)
    ensures Apply(Apply(base, first), second) == Apply(base, second) <==> FirstIsRedundant(base, first, second)
  {
  }

  /** A losing log: the output of the first early update never reaches the entry. */
  lemma EarlyOutputIsLost(noise: Noise)
    ensures
      var call := Called(ToolCallMeta("1", "read", None, None, None, None, None), "read", None);
      var first := Update("running", None, Some(Some("output")), None, None);
      var second := Update("completed", None, None, None, None);
      var lost := Step(noise, Step(noise, Step(noise, EMPTY, Updated("1", first)), Updated("1", second)), call);
      var kept := Step(noise, Step(noise, Step(noise, EMPTY, call), Updated("1", first)), Updated("1", second));
      && "1" in lost.entries && lost.entries["1"].content == None
      && "1" in kept.entries && kept.entries["1"].content == Some("output")
  {
    var call := Called(ToolCallMeta("1", "read", None, None, None, None, None), "read", None);
    var first := Update("running", None, Some(Some("output")), None, None);
    SecondEarlyUpdateWins(noise, EMPTY, call, first, Update("completed", None, None, None, None));
    hide Step;
  }
}
