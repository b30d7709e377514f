/**
 * The parsed configuration the runner and the cores read (pkg/config/config.go): one list of
 * declarations per plugin name, for credentials and for sources. The TOML subtree each
 * declaration keeps for configuring its plugin is an opaque value here.
 */
module Config {

  /** The `*toml.Tree` of one declaration; only its identity matters to the loaders. */
  datatype Tree = Tree(id: nat)

  /** `config.Credential`. */
  datatype Credential = Credential(
    name: string,
    from: string,
    scopes: seq<string>,
    metricTags: map<string, string>,
    tree: Tree)

  /** `config.Source`. */
  datatype Source = Source(
    name: string,
    scopes: seq<string>,
    metricTags: map<string, string>,
    tree: Tree)

  /** `config.Config`, without the `main` table. */
  datatype Config = Config(
    credentials: map<string, seq<Credential>>,
    sources: map<string, seq<Source>>)

  /**
   * `order` is an order a `for name := range m` loop may visit the map in: every key once.
   * Go leaves that order unspecified, so the loaders take it as a parameter.
   */
  ghost predicate Enumerates<V>(order: seq<string>, m: map<string, V>) {
    (forall k :: k in order <==> k in m)
    && (forall i, j :: 0 <= i < j < |order| ==> order[i] != order[j])
  }
}
