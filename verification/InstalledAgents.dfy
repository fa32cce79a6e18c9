/**
 * Installed agent definitions, as the store keeps them and the catalog updates them.
 */
module InstalledAgents {
  import opened Wrappers

  datatype Distribution = Npx | Uvx | Binary | Custom

  datatype InstalledAgent = InstalledAgent(
    registryId: Option<string>,
    name: string,
    version: string,
    distribution: Distribution,
    command: string,
    args: seq<string>,
    env: map<string, string>,
    workingDirectory: Option<string>,
    installedAt: string,
    binaryPath: Option<string>,
    initTimeoutMs: Option<real>)

  type Installed = map<string, InstalledAgent>

  /** The value under a key, as JavaScript reads a missing property. */
  function Get(installed: Installed, key: string): Option<InstalledAgent> {
    if key in installed then Some(installed[key]) else None
  }

  /** Two collections with the same value, or none, under every key are the same. */
  lemma SameByKey(a: Installed, b: Installed)
    requires forall key :: Get(a, key) == Get(b, key)
    ensures a == b
  {
    forall key ensures key in a <==> key in b {
      assert Get(a, key) == Get(b, key);
    }
    forall key | key in a ensures a[key] == b[key] {
      assert Get(a, key) == Get(b, key);
    }
  }

  /** The schema's one demand that the types do not already make. */
  predicate WellFormed(agent: InstalledAgent) {
    agent.initTimeoutMs.Some? ==> agent.initTimeoutMs.value > 0.0
  }
}
