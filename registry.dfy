/**
 * The plugin registry of pkg/registry/registry.go: two package-level maps from plugin name
 * to factory, one for credential plugins and one for source plugins, written by `Add*` and
 * read by `Get*`. Here the package state is an object, and what the plugins a factory
 * builds do when configured, initialised and asked for credentials is a `Plugins` value.
 */
module Registry {
  import opened Wrappers
  import opened Config

  /** A value `Credentials()` returns (`registry.Session`); only its identity matters. */
  datatype Session = Session(id: nat)

  /** An `InitCredentials` function registered under some name. */
  datatype CredentialFactory = CredentialFactory(id: nat)

  /** An `InitSource` function registered under some name. */
  datatype SourceFactory = SourceFactory(id: nat)

  /**
   * What the plugins behave like, as functions of the factory, the session handed to the
   * factory and the declaration's tree: the error `Configure` (the TOML unmarshal into the
   * plugin) returns, the error `Init` returns (`None` also when the plugin has no `Init`),
   * and what `Credentials` returns.
   */
  datatype Plugins = Plugins(
    configureCredentials: (CredentialFactory, Option<Session>, Tree) -> Option<string>,
    initCredentials: (CredentialFactory, Option<Session>, Tree) -> Option<string>,
    sessionOf: (CredentialFactory, Option<Session>, Tree) -> Result<Session, string>,
    configureSource: (SourceFactory, Session, Tree) -> Option<string>,
    initSource: (SourceFactory, Session, Tree) -> Option<string>)

  /** The start of the registry's not-found error for each kind of plugin; the name follows. */
  const CredentialNotFound := "credential plugin not found: "
  const SourceNotFound := "source plugin not found: "

  /**
   * `GetCredentials` and `GetSource` over a given map: the factory registered under `name`, or
   * the kind's not-found text followed by the name.
   */
  function Lookup<F>(m: map<string, F>, notFound: string, name: string): (r: Result<F, string>)
    ensures r.Success? <==> name in m
    ensures r.Success? ==> r.value == m[name]
    ensures r.Failure? ==> r.error == notFound + name
  {
    if name in m then Success(m[name]) else Failure(notFound + name)
  }

  /** The package state: the `credentials` and `sources` maps. */
  class Registry {
    var credentials: map<string, CredentialFactory>
    var sources: map<string, SourceFactory>

    /** Both maps start empty (`make(map[...])`). */
    constructor ()
      ensures credentials == map[] && sources == map[]
    {
      credentials := map[];
      sources := map[];
    }

    /** `AddSource`: registers or replaces the source factory under `name`. */
    method AddSource(name: string, f: SourceFactory)
      modifies this
      ensures sources == old(sources)[name := f]
      ensures credentials == old(credentials)
    {
      sources := sources[name := f];
    }

    /** `GetSource`: the factory registered under `name`, or "source plugin not found: <name>". */
    function GetSource(name: string): (r: Result<SourceFactory, string>)
      reads this
      ensures r.Success? <==> name in sources
      ensures r.Success? ==> r.value == sources[name]
      ensures r.Failure? ==> r.error == "source plugin not found: " + name
    {
      Lookup(sources, SourceNotFound, name)
    }

    /** `AddCredentials`: registers or replaces the credential factory under `name`. */
    method AddCredentials(name: string, f: CredentialFactory)
      modifies this
      ensures credentials == old(credentials)[name := f]
      ensures sources == old(sources)
    {
      credentials := credentials[name := f];
    }

    /** `GetCredentials`: the factory registered under `name`, or "credential plugin not found: <name>". */
    function GetCredentials(name: string): (r: Result<CredentialFactory, string>)
      reads this
      ensures r.Success? <==> name in credentials
      ensures r.Success? ==> r.value == credentials[name]
      ensures r.Failure? ==> r.error == "credential plugin not found: " + name
    {
      Lookup(credentials, CredentialNotFound, name)
    }
  }

  /** After an add, the name finds what was added last; other names find what they did before. */
  lemma AddThenLookup<F>(m: map<string, F>, notFound: string, name: string, f: F, other: string)
    ensures Lookup(m[name := f], notFound, name) == Success(f)
    ensures other != name ==> Lookup(m[name := f], notFound, other) == Lookup(m, notFound, other)
  {
  }

  /** Re-adding a name overwrites: only the last factory added under it is found. */
  lemma AddOverwrites<F>(m: map<string, F>, notFound: string, name: string, f: F, g: F)
    ensures Lookup(m[name := f][name := g], notFound, name) == Success(g)
    ensures m[name := f][name := g] == m[name := g]
  {
  }
}
