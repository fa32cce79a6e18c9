/**
 * Bringing installed agents up to date with the registry, without ever lowering a
 * version or recording one that the runner does not select.
 */
module RegistryReconciliation {
  import opened Wrappers
  import opened InstalledAgents
  import M = StoreMerge

  // ---- The registry ----

  datatype Package = Package(package: string, args: seq<string>, env: map<string, string>)

  datatype RegistryAgent = RegistryAgent(
    id: string,
    name: string,
    version: string,
    npx: Option<Package>,
    uvx: Option<Package>,
    binary: map<string, Package>)

  datatype Resolved = Resolved(kind: Distribution, spec: Package)

  datatype Order = Less | Equal | Greater | Unknown

  /**
   * The version order of each package ecosystem, the test that a package argument selects
   * exactly one version, and the short aliases of registry ids.
   */
  datatype Ecosystem = Ecosystem(
    compare: (Distribution, string, string) -> Order,
    pinned: (Distribution, string, string) -> bool,
    alias: string -> string)

  predicate Runner(d: Distribution) {
    d.Npx? || d.Uvx?
  }

  function CompareVersions(e: Ecosystem, d: Distribution, current: string, available: string): Order {
    match d
    case Npx => e.compare(Npx, current, available)
    case Uvx => e.compare(Uvx, current, available)
    case Binary => e.compare(Npx, current, available)
    case Custom => Unknown
  }

  /** Valid versions are totally preordered; everything else is incomparable. */
  ghost predicate Lawful(e: Ecosystem) {
    && (forall d, a, b :: e.compare(d, a, b).Less? ==> e.compare(d, b, b).Equal?)
    && (forall d, a, b, c ::
          (e.compare(d, a, b).Less? || a == b) && e.compare(d, b, c).Less? ==> e.compare(d, a, c).Less?)
  }

  /** npx wins over uvx, uvx over a binary for this platform. */
  function ResolveDistribution(r: RegistryAgent, platform: string): Option<Resolved> {
    if r.npx.Some? then Some(Resolved(Npx, r.npx.value))
    else if r.uvx.Some? then Some(Resolved(Uvx, r.uvx.value))
    else if platform in r.binary then Some(Resolved(Binary, r.binary[platform]))
    else None
  }

  function DistributionArgs(d: Resolved): seq<string> {
    if d.kind.Binary? then d.spec.args else [d.spec.package] + d.spec.args
  }

  function FindById(registry: seq<RegistryAgent>, id: string): (r: Option<RegistryAgent>)
    ensures r.Some? ==> r.value in registry && r.value.id == id
    ensures r.None? ==> forall a :: a in registry ==> a.id != id
  {
    if registry == [] then None
    else if registry[0].id == id then Some(registry[0])
    else FindById(registry[1..], id)
  }

  function FindByAlias(e: Ecosystem, registry: seq<RegistryAgent>, key: string): (r: Option<RegistryAgent>)
    ensures r.Some? ==> r.value in registry && e.alias(r.value.id) == key
    ensures r.None? ==> forall a :: a in registry ==> e.alias(a.id) != key
  {
    if registry == [] then None
    else if e.alias(registry[0].id) == key then Some(registry[0])
    else FindByAlias(e, registry[1..], key)
  }

  /** An empty registry id counts as none. */
  predicate Linked(agent: InstalledAgent) {
    agent.registryId.Some? && agent.registryId.value != ""
  }

  function Find(e: Ecosystem, registry: seq<RegistryAgent>, key: string, agent: InstalledAgent): Option<RegistryAgent> {
    if Linked(agent) then FindById(registry, agent.registryId.value) else FindByAlias(e, registry, key)
  }

  predicate UniqueIds(registry: seq<RegistryAgent>) {
    && (forall i, j :: 0 <= i < j < |registry| ==> registry[i].id != registry[j].id)
    && (forall i :: 0 <= i < |registry| ==> registry[i].id != "")
  }

  // ---- One agent ----

  datatype Reason = DistributionsDiffer | RunnerNotComparable | VersionsNotComparable

  datatype Catalog = Catalog(ecosystem: Ecosystem, platform: string, registry: seq<RegistryAgent>)

  datatype Decision = Decision(agent: InstalledAgent, updated: bool, skipped: Option<Reason>)

  function RunnerName(d: Distribution): string {
    match d
    case Npx => "npx"
    case Uvx => "uvx"
    case Binary => "binary"
    case Custom => "custom"
  }

  /** The agent runs exactly the version it records. */
  predicate Truthful(e: Ecosystem, agent: InstalledAgent) {
    && Runner(agent.distribution)
    && agent.command == RunnerName(agent.distribution)
    && agent.args != []
    && e.pinned(agent.distribution, agent.args[0], agent.version)
  }

  function Relabel(agent: InstalledAgent, r: RegistryAgent): InstalledAgent {
    agent.(name := r.name, registryId := if Linked(agent) then agent.registryId else Some(r.id))
  }

  function Upgrade(agent: InstalledAgent, r: RegistryAgent, d: Resolved): InstalledAgent {
    Relabel(agent, r).(
      command := RunnerName(d.kind),
      args := DistributionArgs(d),
      env := d.spec.env + agent.env,
      version := r.version)
  }

  function Cosmetic(agent: InstalledAgent, r: RegistryAgent): Decision {
    Decision(Relabel(agent, r), agent.name != r.name || !Linked(agent), None)
  }

  /** The body of the reconciliation loop. */
  function Enrich(c: Catalog, key: string, agent: InstalledAgent): Decision {
    match Find(c.ecosystem, c.registry, key, agent)
    case None => Decision(agent, false, None)
    case Some(r) =>
      match ResolveDistribution(r, c.platform)
      case None => Decision(agent, false, None)
      case Some(d) =>
        if d.kind != agent.distribution then Decision(agent, false, Some(DistributionsDiffer))
        else
          var order := CompareVersions(c.ecosystem, agent.distribution, agent.version, r.version);
          if Runner(agent.distribution) then
            if !Truthful(c.ecosystem, agent) || !c.ecosystem.pinned(d.kind, d.spec.package, r.version) || order.Unknown?
            then Decision(agent, false, Some(RunnerNotComparable))
            else if order.Less? then Decision(Upgrade(agent, r, d), true, None)
            else if order.Equal? then Cosmetic(agent, r)
            else Decision(agent, false, None)
          else if order.Equal? then Cosmetic(agent, r)
          else Decision(agent, false, if order.Unknown? then Some(VersionsNotComparable) else None)
  }

  /** The version stays or rises. */
  predicate NotLowered(e: Ecosystem, before: InstalledAgent, after: InstalledAgent) {
    && after.distribution == before.distribution
    && (after.version == before.version
        || CompareVersions(e, before.distribution, before.version, after.version).Less?)
  }

  /** What runs is untouched. */
  predicate SameRuntime(before: InstalledAgent, after: InstalledAgent) {
    && after.version == before.version
    && after.command == before.command
    && after.args == before.args
    && after.env == before.env
    && after.workingDirectory == before.workingDirectory
    && after.binaryPath == before.binaryPath
  }

  /** The version stays or rises, a truthful runner stays truthful, and other agents keep what they run. */
  predicate Improves(e: Ecosystem, before: InstalledAgent, after: InstalledAgent) {
    && NotLowered(e, before, after)
    && (Truthful(e, before) ==> Truthful(e, after))
    && (!Truthful(e, before) ==> SameRuntime(before, after))
    && (forall name :: name in before.env ==> name in after.env && after.env[name] == before.env[name])
    && (WellFormed(before) ==> WellFormed(after))
    && (Linked(before) ==> after.registryId == before.registryId)
  }

  /** No pass lowers or falsifies an agent; only a truthful runner may change what it runs. */
  lemma EnrichImproves(c: Catalog, key: string, agent: InstalledAgent)
    ensures Improves(c.ecosystem, agent, Enrich(c, key, agent).agent)
    ensures !Enrich(c, key, agent).updated ==> Enrich(c, key, agent).agent == agent
  {
  }

  /** The registry entry that the agent can be compared with: same distribution, pinned, comparable. */
  predicate Comparable(c: Catalog, agent: InstalledAgent, r: RegistryAgent) {
    var d := ResolveDistribution(r, c.platform);
    && d.Some? && d.value.kind == agent.distribution
    && Truthful(c.ecosystem, agent)
    && c.ecosystem.pinned(d.value.kind, d.value.spec.package, r.version)
    && !CompareVersions(c.ecosystem, agent.distribution, agent.version, r.version).Unknown?
  }

  // ---- What one decision comes to ----

  /** The entry an agent belongs to: the one with its registry id, or, without an id, the first whose alias is its key. */
  ghost predicate Listed(c: Catalog, key: string, agent: InstalledAgent, r: RegistryAgent) {
    if agent.registryId.Some? && agent.registryId.value != "" then r in c.registry && r.id == agent.registryId.value
    else
      exists i :: 0 <= i < |c.registry| && c.registry[i] == r && c.ecosystem.alias(r.id) == key
        && forall j :: 0 <= j < i ==> c.ecosystem.alias(c.registry[j].id) != key
  }

  lemma {:induction false} FirstByAlias(e: Ecosystem, registry: seq<RegistryAgent>, key: string, i: nat)
    requires i < |registry| && e.alias(registry[i].id) == key
    requires forall j :: 0 <= j < i ==> e.alias(registry[j].id) != key
    ensures FindByAlias(e, registry, key) == Some(registry[i])
  {
    if i > 0 {
      assert registry[1..][i - 1] == registry[i];
      FirstByAlias(e, registry[1..], key, i - 1);
    }
  }

  lemma ListedIsFound(c: Catalog, key: string, agent: InstalledAgent, r: RegistryAgent)
    requires UniqueIds(c.registry) && Listed(c, key, agent, r)
    ensures Find(c.ecosystem, c.registry, key, agent) == Some(r)
  {
    if Linked(agent) {
      var found := FindById(c.registry, agent.registryId.value).value;
      var i :| 0 <= i < |c.registry| && c.registry[i] == r;
      var j :| 0 <= j < |c.registry| && c.registry[j] == found;
      assert i == j;
    } else {
      var i :| 0 <= i < |c.registry| && c.registry[i] == r && c.ecosystem.alias(r.id) == key
        && forall j :: 0 <= j < i ==> c.ecosystem.alias(c.registry[j].id) != key;
      FirstByAlias(c.ecosystem, c.registry, key, i);
    }
  }

  /** How an entry is distributed here: by npx if it can be, else by uvx, else by the binary for the platform. */
  ghost predicate Offers(r: RegistryAgent, platform: string, d: Distribution, pkg: Package) {
    match d
    case Npx => r.npx == Some(pkg)
    case Uvx => r.npx.None? && r.uvx == Some(pkg)
    case Binary => r.npx.None? && r.uvx.None? && platform in r.binary && r.binary[platform] == pkg
    case Custom => false
  }

  /** The agent is started by its runner's own command, with a package argument that selects the recorded version. */
  ghost predicate PinsItsVersion(e: Ecosystem, agent: InstalledAgent) {
    && agent.command == (if agent.distribution.Npx? then "npx" else "uvx")
    && agent.args != [] && e.pinned(agent.distribution, agent.args[0], agent.version)
  }

  /** The entry's name, and its id unless the agent has one. */
  function Renamed(agent: InstalledAgent, r: RegistryAgent): InstalledAgent {
    agent.(name := r.name,
           registryId := if agent.registryId.Some? && agent.registryId.value != "" then agent.registryId else Some(r.id))
  }

  /**
   * The whole decision about an agent that npx or uvx runs and whose entry offers the same. It is comparable when both
   * sides are pinned and the versions can be compared; if not, it is skipped and left alone. One that is behind is
   * started from now on as the entry says: the runner's command, the package and then all its arguments, the entry's
   * environment under the agent's own, the entry's version. One that is level only takes over name and id; one that is
   * ahead is left alone.
   */
  lemma ComparableRunnersCatchUp(c: Catalog, key: string, agent: InstalledAgent, r: RegistryAgent, pkg: Package)
    requires UniqueIds(c.registry) && Listed(c, key, agent, r)
    requires (agent.distribution.Npx? || agent.distribution.Uvx?) && Offers(r, c.platform, agent.distribution, pkg)
    ensures
      var decision, e := Enrich(c, key, agent), c.ecosystem;
      var after, order := decision.agent, e.compare(agent.distribution, agent.version, r.version);
      if !PinsItsVersion(e, agent) || !e.pinned(agent.distribution, pkg.package, r.version) || order.Unknown? then
        decision == Decision(agent, false, Some(RunnerNotComparable))
      else if order.Less? then
        && decision == Decision(after, true, None)
        && after == Renamed(agent, r).(
             version := r.version,
             command := if agent.distribution.Npx? then "npx" else "uvx",
             args := [pkg.package] + pkg.args,
             env := after.env)
        && after.env.Keys == pkg.env.Keys + agent.env.Keys
        && (forall name :: name in after.env ==>
              after.env[name] == if name in agent.env then agent.env[name] else pkg.env[name])
      else if order.Equal? then
        decision == Decision(Renamed(agent, r), Renamed(agent, r) != agent, None)
      else decision == Decision(agent, false, None)
  {
    ListedIsFound(c, key, agent, r);
    assert r in c.registry && r.id != "";
    hide UniqueIds, Listed, Find;
  }

  /**
   * The decision about all other agents with an entry. If the entry offers another distribution than the agent has, or
   * versions of a binary cannot be compared, the agent is skipped; it is left alone even so, and only one that is
   * level takes over name and id. An entry that offers nothing here decides nothing.
   */
  lemma OtherAgentsKeepWhatTheyRun(c: Catalog, key: string, agent: InstalledAgent, r: RegistryAgent, d: Distribution,
                                   pkg: Package)
    requires UniqueIds(c.registry) && Listed(c, key, agent, r)
    ensures
      var decision, order := Enrich(c, key, agent), c.ecosystem.compare(Npx, agent.version, r.version);
      && (Offers(r, c.platform, d, pkg) && d != agent.distribution ==>
            decision == Decision(agent, false, Some(DistributionsDiffer)))
      && (Offers(r, c.platform, d, pkg) && d == agent.distribution && d.Binary? ==>
            decision ==
              if order.Unknown? then Decision(agent, false, Some(VersionsNotComparable))
              else if order.Equal? then
                Decision(Renamed(agent, r), Renamed(agent, r) != agent || agent.registryId == Some(""), None)
              else Decision(agent, false, None))
      && (r.npx.None? && r.uvx.None? && c.platform !in r.binary ==> decision == Decision(agent, false, None))
  {
    ListedIsFound(c, key, agent, r);
    assert r in c.registry && r.id != "";
    hide UniqueIds, Listed, Find;
  }

  /** An agent without an entry is left alone. */
  lemma UnlistedAgentsStay(c: Catalog, key: string, agent: InstalledAgent)
    requires forall r :: r in c.registry ==>
      if agent.registryId.Some? && agent.registryId.value != "" then r.id != agent.registryId.value
      else c.ecosystem.alias(r.id) != key
    ensures Enrich(c, key, agent) == Decision(agent, false, None)
  {
  }

  /** A runner is skipped, and reported, exactly when its entry exists for this platform but is not comparable. */
  lemma SkippedExactlyWhenIncomparable(c: Catalog, key: string, agent: InstalledAgent, r: RegistryAgent)
    requires Find(c.ecosystem, c.registry, key, agent) == Some(r) && Runner(agent.distribution)
    ensures Enrich(c, key, agent).skipped.Some? <==>
      ResolveDistribution(r, c.platform).Some? && !Comparable(c, agent, r)
    ensures Enrich(c, key, agent).skipped.Some? ==> Enrich(c, key, agent).agent == agent
  {
  }

  /** What is reported as an update is one. */
  lemma UpdatesAreChanges(c: Catalog, key: string, agent: InstalledAgent)
    requires Lawful(c.ecosystem) && UniqueIds(c.registry)
    ensures Enrich(c, key, agent).updated <==> Enrich(c, key, agent).agent != agent
  {
    var found := Find(c.ecosystem, c.registry, key, agent);
    if found.Some? { assert found.value in c.registry && found.value.id != ""; }
  }

  /** The registry entry found by alias is found again by its id. */
  lemma {:induction false} AliasAgreesWithId(e: Ecosystem, registry: seq<RegistryAgent>, key: string)
    requires UniqueIds(registry) && FindByAlias(e, registry, key).Some?
    ensures FindById(registry, FindByAlias(e, registry, key).value.id) == FindByAlias(e, registry, key)
  {
    var r := FindByAlias(e, registry, key).value;
    if e.alias(registry[0].id) != key {
      assert UniqueIds(registry[1..]);
      AliasAgreesWithId(e, registry[1..], key);
      var i :| 0 <= i < |registry[1..]| && registry[1..][i] == r;
      assert registry[i + 1].id == r.id;
    }
  }

  /** A second look at the same registry changes nothing, and skips for the same reason. */
  lemma EnrichIsIdempotent(c: Catalog, key: string, agent: InstalledAgent)
    requires Lawful(c.ecosystem) && UniqueIds(c.registry)
    ensures
      var once := Enrich(c, key, agent);
      Enrich(c, key, once.agent) == Decision(once.agent, false, once.skipped)
  {
    var once := Enrich(c, key, agent);
    var found := Find(c.ecosystem, c.registry, key, agent);
    if once.updated {
      if !Linked(agent) { AliasAgreesWithId(c.ecosystem, c.registry, key); }
      assert found.value in c.registry && found.value.id != "";
      assert Find(c.ecosystem, c.registry, key, once.agent) == found;
    }
  }

  /** An entry without an id would be found by alias again and again, and every pass would report a change. */
  lemma EmptyIdNeverSettles(c: Catalog, key: string, agent: InstalledAgent)
    requires Lawful(c.ecosystem) && !Linked(agent) && Enrich(c, key, agent).updated
    requires Find(c.ecosystem, c.registry, key, agent).value.id == ""
    ensures Enrich(c, key, Enrich(c, key, agent).agent).updated
  {
  }

  // ---- A whole pass ----

  function EnrichAll(c: Catalog, installed: Installed): Installed {
    map key | key in installed :: Enrich(c, key, installed[key]).agent
  }

  function SkippedKeys(c: Catalog, installed: Installed): set<string> {
    set key | key in installed && Enrich(c, key, installed[key]).skipped.Some?
  }

  lemma EnrichAllIsIdempotent(c: Catalog, installed: Installed)
    requires Lawful(c.ecosystem) && UniqueIds(c.registry)
    ensures EnrichAll(c, EnrichAll(c, installed)) == EnrichAll(c, installed)
    ensures SkippedKeys(c, EnrichAll(c, installed)) == SkippedKeys(c, installed)
  {
    hide Enrich, Lawful, UniqueIds;
    forall key | key in installed
      ensures Enrich(c, key, Enrich(c, key, installed[key]).agent)
           == Decision(Enrich(c, key, installed[key]).agent, false, Enrich(c, key, installed[key]).skipped)
    {
      EnrichIsIdempotent(c, key, installed[key]);
    }
  }

  /** Any number of passes over changing registries never lowers a version. */
  function EnrichEach(e: Ecosystem, platform: string, registries: seq<seq<RegistryAgent>>, key: string,
                      agent: InstalledAgent): InstalledAgent
    decreases |registries|
  {
    if registries == [] then agent
    else
      EnrichEach(e, platform, registries[1..], key, Enrich(Catalog(e, platform, registries[0]), key, agent).agent)
  }

  lemma {:induction false} PassesNeverLower(e: Ecosystem, platform: string, registries: seq<seq<RegistryAgent>>,
                                            key: string, agent: InstalledAgent)
    requires Lawful(e)
    ensures NotLowered(e, agent, EnrichEach(e, platform, registries, key, agent))
    ensures Truthful(e, agent) ==> Truthful(e, EnrichEach(e, platform, registries, key, agent))
    ensures !Truthful(e, agent) ==> SameRuntime(agent, EnrichEach(e, platform, registries, key, agent))
    decreases |registries|
  {
    if registries != [] {
      var next := Enrich(Catalog(e, platform, registries[0]), key, agent).agent;
      EnrichImproves(Catalog(e, platform, registries[0]), key, agent);
      PassesNeverLower(e, platform, registries[1..], key, next);
    }
  }

  // ---- The pass and the store ----

  datatype Diagnostic = ConflictsRetained(count: nat) | NotPersisted

  /** The part of the registry status that reconciliation maintains; `None` for an absent property. */
  datatype Status = Status(
    skipped: Option<nat>,
    warning: Option<Reason>,
    pending: Option<Diagnostic>)

  datatype CatalogState = CatalogState(data: M.StoreData, disk: M.Content, status: Status)

  /** The reason recorded last, in the order the keys are visited. */
  function LastReason(c: Catalog, installed: Installed, order: seq<string>): Option<Reason>
    requires forall key :: key in order ==> key in installed
  {
    if order == [] then None
    else
      var last := order[|order| - 1];
      var d := Enrich(c, last, installed[last]);
      if d.skipped.Some? then d.skipped else LastReason(c, installed, order[..|order| - 1])
  }

  predicate AnyUpdated(c: Catalog, installed: Installed) {
    exists key :: key in installed && Enrich(c, key, installed[key]).updated
  }

  ghost predicate Enumerates(order: seq<string>, installed: Installed) {
    && (forall key :: key in order <==> key in installed)
    && (forall i, j :: 0 <= i < j < |order| ==> order[i] != order[j])
  }

  /** Whether a call of `replaceInstalled` throws. */
  predicate Throws(reply: M.Reply) {
    !reply.Committed? && !reply.Unchanged?
  }

  /** One reconciliation: enrich what the store holds, then merge the draft into the file. */
  function Reconcile(c: Catalog, order: seq<string>, s: CatalogState, faults: M.Faults): CatalogState
    requires Enumerates(order, s.data.installed)
  {
    var installed := s.data.installed;
    var skipped := |SkippedKeys(c, installed)|;
    var status := s.status.(
      skipped := if skipped > 0 then Some(skipped) else None,
      warning := LastReason(c, installed, order));
    if !AnyUpdated(c, installed) then s.(status := status.(pending := None))
    else
      var draft := EnrichAll(c, installed);
      var e := M.Update(s.data, s.disk, M.Replace(draft), faults);
      var conflicts := M.Merge(M.Seen(s.disk).installed, installed, draft).conflicts;
      CatalogState(e.data, e.disk, status.(
        pending := if Throws(e.reply) then Some(NotPersisted)
                   else if conflicts != {} then Some(ConflictsRetained(|conflicts|))
                   else None))
  }

  /**
   * Whatever other writers did to the file meanwhile, each committed agent is kept or improved
   * by the decision for exactly that agent, and no key comes or goes.
   */
  lemma ReconcileImprovesFile(c: Catalog, order: seq<string>, s: CatalogState, faults: M.Faults, key: string)
    requires Enumerates(order, s.data.installed) && !s.disk.Corrupt?
    ensures
      var before, after := M.Seen(s.disk).installed, M.Seen(Reconcile(c, order, s, faults).disk).installed;
      && (key in before <==> key in after)
      && (key in before && after[key] != before[key] ==>
            && after[key] == Enrich(c, key, before[key]).agent
            && key in s.data.installed && s.data.installed[key] == before[key])
      && (key in before ==> Improves(c.ecosystem, before[key], after[key]))
  {
    var installed := s.data.installed;
    var draft := EnrichAll(c, installed);
    var before, after := M.Seen(s.disk).installed, M.Seen(Reconcile(c, order, s, faults).disk).installed;
    M.NoLostUpdate(s.data, s.disk, draft, faults, key);
    assert (Get(installed, key) == None) == (Get(draft, key) == None);
    if key in before && after[key] != before[key] {
      assert Get(before, key) == Get(installed, key) && Get(after, key) == Get(draft, key);
      EnrichImproves(c, key, before[key]);
    }
  }

  /** When nothing is pending every change of this pass is in the file; only a pass with changes leaves anything pending. */
  lemma PendingMeansUnwritten(c: Catalog, order: seq<string>, s: CatalogState, faults: M.Faults, key: string)
    requires Enumerates(order, s.data.installed) && !s.disk.Corrupt?
    requires Lawful(c.ecosystem) && UniqueIds(c.registry)
    ensures
      var s' := Reconcile(c, order, s, faults);
      var draft := EnrichAll(c, s.data.installed);
      && (s'.status.pending.None? && key in M.ChangedKeys(s.data.installed, draft) ==>
            Get(M.Seen(s'.disk).installed, key) == Get(draft, key))
      && (s'.status.pending.Some? ==> M.ChangedKeys(s.data.installed, draft) != {})
  {
    hide Enrich, Lawful, UniqueIds, LastReason, M.Schema, M.Merge, M.ChangedKeys, SkippedKeys;
    var installed := s.data.installed;
    var draft := EnrichAll(c, installed);
    ChangedMeansUpdated(c, installed, key);
    M.MergeDecides(M.Seen(s.disk).installed, installed, draft, key);
    if AnyUpdated(c, installed) {
      var k :| k in installed && Enrich(c, k, installed[k]).updated;
      ChangedMeansUpdated(c, installed, k);
    }
  }

  lemma ChangedMeansUpdated(c: Catalog, installed: Installed, key: string)
    requires Lawful(c.ecosystem) && UniqueIds(c.registry)
    ensures key in M.ChangedKeys(installed, EnrichAll(c, installed))
      <==> Get(installed, key) != Get(EnrichAll(c, installed), key)
    ensures key in M.ChangedKeys(installed, EnrichAll(c, installed))
      <==> key in installed && Enrich(c, key, installed[key]).updated
  {
    hide Enrich, Lawful, UniqueIds;
    if key in installed { UpdatesAreChanges(c, key, installed[key]); }
  }

  /** The reason that was recorded last: that of the last key, in the order visited, whose agent was skipped. */
  ghost predicate LastSkip(c: Catalog, installed: Installed, order: seq<string>, reason: Option<Reason>)
    requires forall key :: key in order ==> key in installed
  {
    if reason.None? then forall key :: key in order ==> Enrich(c, key, installed[key]).skipped.None?
    else
      exists i :: 0 <= i < |order| && Enrich(c, order[i], installed[order[i]]).skipped == reason
        && forall j :: i < j < |order| ==> Enrich(c, order[j], installed[order[j]]).skipped.None?
  }

  lemma {:induction false} LastReasonIsLast(c: Catalog, installed: Installed, order: seq<string>)
    requires forall key :: key in order ==> key in installed
    ensures LastSkip(c, installed, order, LastReason(c, installed, order))
  {
    hide Enrich;
    if order != [] {
      var n := |order| - 1;
      var before := order[..n];
      LastReasonIsLast(c, installed, before);
      if Enrich(c, order[n], installed[order[n]]).skipped.None? && LastReason(c, installed, before).Some? {
        var i :| 0 <= i < n && Enrich(c, before[i], installed[before[i]]).skipped == LastReason(c, installed, before)
          && forall j :: i < j < n ==> Enrich(c, before[j], installed[before[j]]).skipped.None?;
        forall j | i < j < |order| ensures Enrich(c, order[j], installed[order[j]]).skipped.None? {
          if j < n { assert before[j] == order[j]; }
        }
        assert order[i] == before[i];
      }
    }
  }

  /** The keys that both this pass and someone else changed. */
  function Contested(installed: Installed, draft: Installed, current: Installed): set<string> {
    set key | key in installed.Keys && Get(draft, key) != Get(installed, key) && Get(current, key) != Get(installed, key)
  }

  /**
   * What a pass reports: how many agents it skipped and the last reason, nothing when it skipped none; and, after a pass
   * with a change, that it could not be written, or how many changes gave way to those of others.
   */
  lemma ReconcileReports(c: Catalog, order: seq<string>, s: CatalogState, faults: M.Faults)
    requires Enumerates(order, s.data.installed)
    ensures
      var installed, status := s.data.installed, Reconcile(c, order, s, faults).status;
      var draft := EnrichAll(c, installed);
      var reply := M.Update(s.data, s.disk, M.Replace(draft), faults).reply;
      var contested := Contested(installed, draft, M.Seen(s.disk).installed);
      && status.skipped == (if SkippedKeys(c, installed) == {} then None else Some(|SkippedKeys(c, installed)|))
      && LastSkip(c, installed, order, status.warning)
      && status.pending ==
           (if forall key :: key in installed ==> !Enrich(c, key, installed[key]).updated then None
            else if !reply.Committed? && !reply.Unchanged? then Some(NotPersisted)
            else if contested == {} then None
            else Some(ConflictsRetained(|contested|)))
  {
    var installed := s.data.installed;
    var draft, current := EnrichAll(c, installed), M.Seen(s.disk).installed;
    LastReasonIsLast(c, installed, order);
    hide Enrich, LastReason, M.Update, LastSkip;
    assert M.Merge(current, installed, draft).conflicts == Contested(installed, draft, current);
  }

  /** An undisturbed pass leaves nothing for the next one to do. */
  lemma SecondPassChangesNothing(c: Catalog, order: seq<string>, again: seq<string>, s: CatalogState,
                                 faults: M.Faults, next: M.Faults)
    requires Enumerates(order, s.data.installed) && s.disk == M.Present(s.data)
    requires Lawful(c.ecosystem) && UniqueIds(c.registry)
    requires Reconcile(c, order, s, faults).status.pending.None?
    requires Enumerates(again, Reconcile(c, order, s, faults).data.installed)
    ensures
      var once := Reconcile(c, order, s, faults);
      var twice := Reconcile(c, again, once, next);
      twice.data == once.data && twice.disk == once.disk
      && twice.status.skipped == once.status.skipped && twice.status.pending.None?
  {
    hide Enrich, Lawful, UniqueIds, LastReason, M.Update, M.Merge, EnrichAll, AnyUpdated, SkippedKeys;
    var installed := s.data.installed;
    if AnyUpdated(c, installed) {
      EnrichAllIsIdempotent(c, installed);
      CommittedDraft(c, s, faults);
      EnrichedNeedsNothing(c, installed);
    }
  }

  /** An uncontended pass that does not throw installs its draft. */
  lemma CommittedDraft(c: Catalog, s: CatalogState, faults: M.Faults)
    requires Lawful(c.ecosystem) && UniqueIds(c.registry) && s.disk == M.Present(s.data)
    requires AnyUpdated(c, s.data.installed)
    ensures
      var e := M.Update(s.data, s.disk, M.Replace(EnrichAll(c, s.data.installed)), faults);
      !Throws(e.reply) ==> e.data.installed == EnrichAll(c, s.data.installed) && e.disk == M.Present(e.data)
  {
    hide Enrich, Lawful, UniqueIds, M.Schema, M.Merge;
    var installed := s.data.installed;
    var draft := EnrichAll(c, installed);
    M.UncontendedMergeInstallsDraft(installed, draft);
    var key :| key in installed && Enrich(c, key, installed[key]).updated;
    UpdatesAreChanges(c, key, installed[key]);
    M.MergeDecides(installed, installed, draft, key);
    assert key in M.Merge(installed, installed, draft).applied;
  }

  lemma EnrichedNeedsNothing(c: Catalog, installed: Installed)
    requires Lawful(c.ecosystem) && UniqueIds(c.registry)
    ensures !AnyUpdated(c, EnrichAll(c, installed))
  {
    hide Enrich, Lawful, UniqueIds;
    forall key | key in installed ensures !Enrich(c, key, Enrich(c, key, installed[key]).agent).updated {
      EnrichIsIdempotent(c, key, installed[key]);
    }
  }

  // ---- Validation ----

  /** The valid entries, each id once, in their order. */
  function Validate(candidates: seq<RegistryAgent>, valid: RegistryAgent -> bool): seq<RegistryAgent> {
    if candidates == [] then []
    else
      var agents := Validate(candidates[..|candidates| - 1], valid);
      var last := candidates[|candidates| - 1];
      if !valid(last) || last.id in Ids(agents) then agents else agents + [last]
  }

  function Ids(agents: seq<RegistryAgent>): set<string> {
    set a | a in agents :: a.id
  }

  /** Validation gives unique, non-empty ids, and loses no valid id. */
  lemma {:induction false} ValidatedIdsAreUnique(candidates: seq<RegistryAgent>, valid: RegistryAgent -> bool)
    requires forall a :: valid(a) ==> a.id != ""
    ensures UniqueIds(Validate(candidates, valid))
    ensures forall a :: a in Validate(candidates, valid) ==> a in candidates && valid(a)
    ensures forall a :: a in candidates && valid(a) ==> a.id in Ids(Validate(candidates, valid))
    ensures |Validate(candidates, valid)| <= |candidates|
  {
    if candidates != [] {
      var rest, last := candidates[..|candidates| - 1], candidates[|candidates| - 1];
      ValidatedIdsAreUnique(rest, valid);
      assert candidates == rest + [last];
      var agents := Validate(rest, valid);
      assert Ids(agents + [last]) == Ids(agents) + {last.id} by {
        forall id ensures id in Ids(agents + [last]) <==> id in Ids(agents) + {last.id} {
          if id in Ids(agents) {
            var a :| a in agents && a.id == id;
            assert a in agents + [last];
          }
          if id == last.id { assert last in agents + [last]; }
        }
      }
      if valid(last) && last.id !in Ids(agents) {
        forall i | 0 <= i < |agents| ensures agents[i].id != last.id {
          assert agents[i] in agents;
        }
      }
    }
  }

  /** The entry at i is valid and no valid entry before it has its id. */
  predicate FirstValid(candidates: seq<RegistryAgent>, valid: RegistryAgent -> bool, i: nat) {
    && i < |candidates| && valid(candidates[i])
    && forall j :: 0 <= j < i && valid(candidates[j]) ==> candidates[j].id != candidates[i].id
  }

  lemma FirstValidOfPrefix(candidates: seq<RegistryAgent>, valid: RegistryAgent -> bool, n: nat, i: nat)
    requires i < n <= |candidates|
    ensures FirstValid(candidates[..n], valid, i) <==> FirstValid(candidates, valid, i)
  {
    assert forall j :: 0 <= j < n ==> candidates[..n][j] == candidates[j];
  }

  /** Of each id the first valid entry is kept, and the kept entries stay in their order. */
  lemma {:induction false} ValidationKeepsFirsts(candidates: seq<RegistryAgent>, valid: RegistryAgent -> bool)
    returns (at: seq<nat>)
    requires forall a :: valid(a) ==> a.id != ""
    ensures |at| == |Validate(candidates, valid)|
    ensures forall k :: 0 <= k < |at| ==>
      FirstValid(candidates, valid, at[k]) && Validate(candidates, valid)[k] == candidates[at[k]]
    ensures forall k, l :: 0 <= k < l < |at| ==> at[k] < at[l]
    ensures forall i :: FirstValid(candidates, valid, i) ==> i in at
  {
    at := [];
    if candidates != [] {
      var n := |candidates| - 1;
      var before := candidates[..n];
      at := ValidationKeepsFirsts(before, valid);
      KeptAmongMore(candidates, valid, at, Validate(before, valid));
      LastIsFirst(candidates, valid);
      hide FirstValid, Ids;
      if FirstValid(candidates, valid, n) { at := at + [n]; }
    }
  }

  /** What was kept of all but the last entry is also kept of all of them. */
  lemma KeptAmongMore(candidates: seq<RegistryAgent>, valid: RegistryAgent -> bool, at: seq<nat>,
                      agents: seq<RegistryAgent>)
    requires candidates != [] && |at| == |agents|
    requires
      var before := candidates[..|candidates| - 1];
      && (forall k :: 0 <= k < |at| ==> FirstValid(before, valid, at[k]) && agents[k] == before[at[k]])
      && (forall i :: FirstValid(before, valid, i) ==> i in at)
    ensures forall k :: 0 <= k < |at| ==>
      at[k] < |candidates| - 1 && FirstValid(candidates, valid, at[k]) && agents[k] == candidates[at[k]]
    ensures forall i: nat :: i != |candidates| - 1 && FirstValid(candidates, valid, i) ==> i in at
  {
    var n := |candidates| - 1;
    var before := candidates[..n];
    forall i | 0 <= i < n ensures FirstValid(before, valid, i) <==> FirstValid(candidates, valid, i) {
      FirstValidOfPrefix(candidates, valid, n, i);
    }
    forall k | 0 <= k < |at|
      ensures at[k] < n && FirstValid(candidates, valid, at[k]) && agents[k] == candidates[at[k]]
    {
      assert FirstValid(before, valid, at[k]) && at[k] < n;
      hide FirstValid;
    }
    forall i: nat | i != n && FirstValid(candidates, valid, i) ensures i in at {
      assert i < n;
      hide FirstValid;
    }
  }

  /** The last entry is the first of its id exactly when it is valid and validation has not kept that id yet. */
  lemma LastIsFirst(candidates: seq<RegistryAgent>, valid: RegistryAgent -> bool)
    requires candidates != [] && forall a :: valid(a) ==> a.id != ""
    ensures
      var n := |candidates| - 1;
      FirstValid(candidates, valid, n) <==>
        valid(candidates[n]) && candidates[n].id !in Ids(Validate(candidates[..n], valid))
  {
    var n := |candidates| - 1;
    var before := candidates[..n];
    ValidatedIdsAreUnique(before, valid);
    assert forall j :: 0 <= j < n ==> before[j] == candidates[j];
    if candidates[n].id in Ids(Validate(before, valid)) {
      var a :| a in Validate(before, valid) && a.id == candidates[n].id;
      assert a in before && valid(a);
    }
    forall j | 0 <= j < n && valid(candidates[j]) ensures candidates[j].id in Ids(Validate(before, valid)) {
      assert before[j] in before;
    }
  }
}
