/**
 * The agent catalog's reconciliation, as it loops over the installed agents and reports
 * through the registry status.
 */
module AgentCataloging {
  import opened Wrappers
  import opened InstalledAgents
  import opened RegistryReconciliation
  import M = StoreMerge
  import opened AgentStorage

  /** Skip entries that are invalid or repeat an id. */
  method ValidateRegistryAgents(candidates: seq<RegistryAgent>, valid: RegistryAgent -> bool)
    returns (agents: seq<RegistryAgent>, invalidEntries: nat)
    ensures agents == Validate(candidates, valid)
    ensures invalidEntries + |agents| == |candidates|
  {
    agents, invalidEntries := [], 0;
    var seenIds: set<string> := {};
    var i := 0;
    while i < |candidates|
      invariant i <= |candidates|
      invariant agents == Validate(candidates[..i], valid) && seenIds == Ids(agents)
      invariant invalidEntries + |agents| == i
    {
      var candidate := candidates[i];
      assert candidates[..i + 1][..i] == candidates[..i];
      if !valid(candidate) || candidate.id in seenIds {
        invalidEntries := invalidEntries + 1;
      } else {
        IdsOfOneMore(agents, candidate);
        seenIds := seenIds + {candidate.id};
        agents := agents + [candidate];
      }
      i := i + 1;
    }
    assert candidates[..i] == candidates;
  }

  lemma IdsOfOneMore(agents: seq<RegistryAgent>, a: RegistryAgent)
    ensures Ids(agents + [a]) == Ids(agents) + {a.id}
  {
    assert a in agents + [a];
    forall b | b in agents ensures b in agents + [a] {
    }
  }

  // ---- How far the loop has come ----

  function Enriched(c: Catalog, before: Installed, done: seq<string>): Installed {
    map key | key in before :: if key in done then Enrich(c, key, before[key]).agent else before[key]
  }

  function SkippedAmong(c: Catalog, before: Installed, done: seq<string>): set<string> {
    set key | key in before && key in done && Enrich(c, key, before[key]).skipped.Some?
  }

  predicate UpdatedAmong(c: Catalog, before: Installed, done: seq<string>) {
    exists key :: key in before && key in done && Enrich(c, key, before[key]).updated
  }

  lemma NothingDone(c: Catalog, before: Installed)
    ensures Enriched(c, before, []) == before
    ensures SkippedAmong(c, before, []) == {} && !UpdatedAmong(c, before, [])
    ensures LastReason(c, before, []).None?
  {
  }

  lemma OneMoreDone(c: Catalog, before: Installed, done: seq<string>, key: string)
    requires key in before && key !in done && forall k :: k in done ==> k in before
    ensures
      var d := Enrich(c, key, before[key]);
      && Enriched(c, before, done)[key] == before[key]
      && Enriched(c, before, done + [key]) == Enriched(c, before, done)[key := d.agent]
      && |SkippedAmong(c, before, done + [key])|
         == |SkippedAmong(c, before, done)| + (if d.skipped.Some? then 1 else 0)
      && UpdatedAmong(c, before, done + [key]) == (UpdatedAmong(c, before, done) || d.updated)
      && LastReason(c, before, done + [key])
         == if d.skipped.Some? then d.skipped else LastReason(c, before, done)
  {
    hide Enrich;
    var d := Enrich(c, key, before[key]);
    assert (done + [key])[..|done|] == done;
    assert SkippedAmong(c, before, done + [key])
      == SkippedAmong(c, before, done) + (if d.skipped.Some? then {key} else {});
    if UpdatedAmong(c, before, done) {
      var k :| k in before && k in done && Enrich(c, k, before[k]).updated;
      assert k in done + [key];
    }
    if d.updated { assert key in done + [key]; }
  }

  lemma EnumeratedOnce(order: seq<string>, installed: Installed, i: nat)
    requires Enumerates(order, installed) && i < |order|
    ensures order[i] in installed && order[i] !in order[..i] && order[..i + 1] == order[..i] + [order[i]]
  {
  }

  lemma AllDone(c: Catalog, before: Installed, order: seq<string>)
    requires Enumerates(order, before)
    ensures Enriched(c, before, order) == EnrichAll(c, before)
    ensures SkippedAmong(c, before, order) == SkippedKeys(c, before)
    ensures UpdatedAmong(c, before, order) == AnyUpdated(c, before)
  {
    hide Enrich;
  }

  /** The loop has been through `done`. */
  ghost predicate Come(c: Catalog, before: Installed, done: seq<string>, installed: Installed, changed: bool,
                       skippedCount: nat, warning: Option<Reason>)
  {
    && (forall k :: k in done ==> k in before)
    && installed == Enriched(c, before, done) && changed == UpdatedAmong(c, before, done)
    && skippedCount == |SkippedAmong(c, before, done)| && warning == LastReason(c, before, done)
  }

  lemma HasNotBegun(c: Catalog, before: Installed)
    ensures Come(c, before, [], before, false, 0, None)
  {
    NothingDone(c, before);
  }

  lemma ComesFurther(c: Catalog, before: Installed, done: seq<string>, key: string, installed: Installed, changed: bool,
                     skippedCount: nat, warning: Option<Reason>)
    requires Come(c, before, done, installed, changed, skippedCount, warning) && key in before && key !in done
    ensures key in installed && installed[key] == before[key]
    ensures
      var d := Enrich(c, key, installed[key]);
      Come(c, before, done + [key], installed[key := d.agent], changed || d.updated,
           skippedCount + (if d.skipped.Some? then 1 else 0), if d.skipped.Some? then d.skipped else warning)
  {
    OneMoreDone(c, before, done, key);
    assert key in Enriched(c, before, done);
    hide Enrich, Enriched, SkippedAmong, UpdatedAmong, LastReason;
  }

  lemma HasFinished(c: Catalog, before: Installed, order: seq<string>, installed: Installed, changed: bool,
                    skippedCount: nat, warning: Option<Reason>)
    requires Enumerates(order, before) && Come(c, before, order, installed, changed, skippedCount, warning)
    ensures installed == EnrichAll(c, before) && changed == AnyUpdated(c, before)
    ensures skippedCount == |SkippedKeys(c, before)| && warning == LastReason(c, before, order)
  {
    AllDone(c, before, order);
    hide EnrichAll, AnyUpdated, SkippedKeys, Enriched, UpdatedAmong, SkippedAmong, LastReason;
  }

  class AgentCatalog {
    const store: AgentStore
    const ecosystem: Ecosystem
    const platform: string
    var registryAgents: seq<RegistryAgent>
    var registryStatus: Status

    constructor (store: AgentStore, ecosystem: Ecosystem, platform: string, registryAgents: seq<RegistryAgent>)
      ensures this.store == store && State() == CatalogState(store.data, store.file.content, Status(None, None, None))
      ensures Catalog() == RegistryReconciliation.Catalog(ecosystem, platform, registryAgents)
    {
      this.store, this.ecosystem, this.platform := store, ecosystem, platform;
      this.registryAgents, this.registryStatus := registryAgents, Status(None, None, None);
    }

    function State(): CatalogState
      reads this, store, store.file
    {
      CatalogState(store.data, store.file.content, registryStatus)
    }

    function Catalog(): Catalog
      reads this
    {
      RegistryReconciliation.Catalog(ecosystem, platform, registryAgents)
    }

    /** `order` is the order in which the runtime enumerates the installed keys. */
    method EnrichInstalledFromRegistry(order: seq<string>, faults: M.Faults)
      requires Enumerates(order, store.data.installed)
      modifies this`registryStatus, store, store.file
      ensures State() == Reconcile(Catalog(), order, old(State()), faults)
    {
      var draft, changed, skippedCount, warning := EnrichDraft(order);
      registryStatus := registryStatus.(
        skipped := if skippedCount > 0 then Some(skippedCount) else None,
        warning := if skippedCount > 0 then warning else None);
      LastReasonOfNone(Catalog(), store.data.installed, order);
      if !changed {
        registryStatus := registryStatus.(pending := None);
        return;
      }
      hide Enrich, M.Merge, M.Update, LastReason;
      var merge, reply := store.ReplaceInstalled(draft, faults);
      registryStatus := registryStatus.(pending :=
        if Throws(reply) then Some(NotPersisted)
        else if |merge.conflictKeys| > 0 then Some(ConflictsRetained(|merge.conflictKeys|))
        else None);
    }

    /** The loop over the installed agents, which are detached copies. */
    method EnrichDraft(order: seq<string>)
      returns (installed: Installed, changed: bool, skippedCount: nat, warning: Option<Reason>)
      requires Enumerates(order, store.data.installed)
      ensures installed == EnrichAll(Catalog(), store.data.installed)
      ensures changed == AnyUpdated(Catalog(), store.data.installed)
      ensures skippedCount == |SkippedKeys(Catalog(), store.data.installed)|
      ensures warning == LastReason(Catalog(), store.data.installed, order)
    {
      ghost var c, before := Catalog(), store.data.installed;
      installed, changed, skippedCount, warning := store.GetInstalled(), false, 0, None;
      assert installed == before;
      HasNotBegun(c, before);
      hide *;
      var i := 0;
      while i < |order|
        invariant i <= |order|
        invariant Come(c, before, order[..i], installed, changed, skippedCount, warning)
      {
        var key := order[i];
        EnumeratedOnce(order, before, i);
        ComesFurther(c, before, order[..i], key, installed, changed, skippedCount, warning);
        var decision := EnrichOne(key, installed[key]);
        if decision.skipped.Some? {
          skippedCount := skippedCount + 1;
          warning := decision.skipped;
        }
        installed := installed[key := decision.agent];
        changed := changed || decision.updated;
        i := i + 1;
      }
      assert order[..i] == order;
      HasFinished(c, before, order, installed, changed, skippedCount, warning);
    }

    /** One round of the loop: the agent's fields are assigned one by one. */
    method EnrichOne(key: string, agent: InstalledAgent) returns (decision: Decision)
      ensures decision == Enrich(Catalog(), key, agent)
    {
      decision := Decision(agent, false, None);
      var found := Find(ecosystem, registryAgents, key, agent);
      if found.None? { return; }
      var regAgent := found.value;
      var resolved := ResolveDistribution(regAgent, platform);
      if resolved.None? { return; }
      var currentDist := resolved.value;
      if currentDist.kind != agent.distribution { return decision.(skipped := Some(DistributionsDiffer)); }
      var order := CompareVersions(ecosystem, agent.distribution, agent.version, regAgent.version);
      var updated := agent;
      if Runner(agent.distribution) {
        if !Truthful(ecosystem, agent)
           || !ecosystem.pinned(currentDist.kind, currentDist.spec.package, regAgent.version)
           || order.Unknown?
        {
          return decision.(skipped := Some(RunnerNotComparable));
        }
        if order.Less? {
          updated := updated.(command := RunnerName(currentDist.kind));
          updated := updated.(args := DistributionArgs(currentDist));
          updated := updated.(env := currentDist.spec.env + agent.env);
          updated := updated.(version := regAgent.version);
          updated := updated.(name := regAgent.name);
          if !Linked(agent) { updated := updated.(registryId := Some(regAgent.id)); }
          return Decision(updated, true, None);
        }
      } else if order.Unknown? {
        return decision.(skipped := Some(VersionsNotComparable));
      }
      if order.Equal? {
        if agent.name != regAgent.name {
          updated := updated.(name := regAgent.name);
          decision := decision.(updated := true);
        }
        if !Linked(agent) {
          updated := updated.(registryId := Some(regAgent.id));
          decision := decision.(updated := true);
        }
        decision := decision.(agent := updated);
      }
    }
  }

  /** When nothing was skipped there is no reason to report. */
  lemma {:induction false} LastReasonOfNone(c: Catalog, installed: Installed, order: seq<string>)
    requires forall key :: key in order ==> key in installed
    ensures SkippedKeys(c, installed) == {} ==> LastReason(c, installed, order).None?
  {
    if order != [] {
      LastReasonOfNone(c, installed, order[..|order| - 1]);
      assert order[|order| - 1] in installed;
      if SkippedKeys(c, installed) == {} { assert order[|order| - 1] !in SkippedKeys(c, installed); }
    }
  }
}
