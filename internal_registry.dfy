/**
 * The older registry of internal/registry/registry.go: a `plugins` map of source factories
 * and a `credentials` map of credential factories. Its `GetCredentials` never fails: for an
 * unregistered name it returns Go's nil function, here `None`.
 */
module InternalRegistry {
  import opened Wrappers
  import PkgRegistry = Registry

  /** `credentials[name]`: the factory, or the nil zero value when the name is unknown. */
  function Find(m: map<string, PkgRegistry.CredentialFactory>, name: string): (r: Option<PkgRegistry.CredentialFactory>)
    ensures r.Some? <==> name in m
    ensures r.Some? ==> r.value == m[name]
  {
    if name in m then Some(m[name]) else None
  }

  class Registry {
    var credentials: map<string, PkgRegistry.CredentialFactory>
    var plugins: map<string, PkgRegistry.SourceFactory>

    constructor ()
      ensures credentials == map[] && plugins == map[]
    {
      credentials := map[];
      plugins := map[];
    }

    /** `AddPlugin`: writes the `plugins` map only. */
    method AddPlugin(name: string, f: PkgRegistry.SourceFactory)
      modifies this
      ensures plugins == old(plugins)[name := f]
      ensures credentials == old(credentials)
    {
      plugins := plugins[name := f];
    }

    method AddCredentials(name: string, f: PkgRegistry.CredentialFactory)
      modifies this
      ensures credentials == old(credentials)[name := f]
      ensures plugins == old(plugins)
    {
      credentials := credentials[name := f];
    }

    /** `GetCredentials`: the factory or nil, and always a nil error. */
    function GetCredentials(name: string): (r: (Option<PkgRegistry.CredentialFactory>, Option<string>))
      reads this
      ensures r.1 == None
      ensures r.0 == Find(credentials, name)
    {
      (Find(credentials, name), None)
    }
  }

  /** After `AddCredentials(n, f)` the name finds `f`; a later add under it overwrites. */
  lemma AddThenFind(m: map<string, PkgRegistry.CredentialFactory>, name: string, f: PkgRegistry.CredentialFactory, g: PkgRegistry.CredentialFactory)
    ensures Find(m[name := f], name) == Some(f)
    ensures Find(m[name := f][name := g], name) == Some(g)
  {
  }
}
