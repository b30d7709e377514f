/**
 * `Runner` of pkg/core/runner.go: the session and source instances `NewRunner` loads from a
 * configuration. Every method is proved against the functions of `RunnerSpec`. The plugin
 * registry, a package-level global in Go, is passed in as the `Registry` object.
 */
module CoreRunner {
  import opened Wrappers
  import opened Util
  import opened Config
  import opened Registry
  import opened RunnerSpec

  class Runner {
    var sessions: seq<SessionInstance>
    var sources: seq<SourceInstance>

    /** `var runner Runner`: no sessions and no sources. */
    constructor ()
      ensures sessions == [] && sources == []
    {
      sessions := [];
      sources := [];
    }

    /** `getSessionByName`: the position of the first session with that non-empty name. */
    method GetSessionByName(name: string) returns (r: Result<nat, string>)
      ensures FindSession(sessions, name).Some? ==> r == Success(FindSession(sessions, name).value)
      ensures FindSession(sessions, name).None? ==> r == Failure(SessionNotFound(name))
    {
      for i := 0 to |sessions|
        invariant name == "" || forall j :: 0 <= j < i ==> sessions[j].name != name
      {
        if sessions[i].name != "" && sessions[i].name == name {
          return Success(i);
        }
      }
      return Failure(SessionNotFound(name));
    }

    /**
     * `getSessionsByScope`: every session whose scopes list `scope`, in session order, each
     * once however often it lists the scope; the error is always nil.
     */
    method GetSessionsByScope(scope: string) returns (result: seq<nat>, err: Option<string>)
      ensures result == ScopeMatches(sessions, scope)
      ensures err == None
    {
      var seen: set<nat> := {};
      result := [];
      for i := 0 to |sessions|
        invariant result == ScopeMatches(sessions[..i], scope)
        invariant forall k :: k in seen <==> k in result
      {
        ghost var before := result;
        var scopes := sessions[i].scopes;
        for j := 0 to |scopes|
          invariant result == before + (if scope in scopes[..j] then [i] else [])
          invariant forall k :: k in seen <==> k in result
        {
          assert scopes[..j + 1] == scopes[..j] + [scopes[j]];
          if scopes[j] == scope && i !in seen {
            seen := seen + {i};
            result := result + [i];
          }
        }
        assert scopes[..|scopes|] == scopes;
        assert sessions[..i + 1][..i] == sessions[..i];
        assert sessions[..i + 1][i] == sessions[i];
      }
      assert sessions[..|sessions|] == sessions;
      err := None;
    }

    /**
     * `loadCredentialPlugin`: appends the session instance `CredentialStep` describes, or
     * returns its error and appends nothing.
     */
    method LoadCredentialPlugin(reg: Registry, plugins: Plugins, name: string, conf: Credential)
      returns (err: Option<string>)
      modifies this
      ensures var step := CredentialStep(old(sessions), reg.credentials, plugins, name, conf);
        if step.Success? then err == None && sessions == old(sessions) + [step.value]
        else err == Some(step.error) && sessions == old(sessions)
      ensures sources == old(sources)
    {
      var init := reg.GetCredentials(name);
      if init.Failure? {
        return Some(init.error);
      }
      var f := init.value;
      var cred: Option<Session> := None;
      if conf.from != "" {
        var sess := GetSessionByName(conf.from);
        if sess.Failure? {
          return Some(sess.error);
        }
        cred := Some(sessions[sess.value].session);
      }
      var configured := plugins.configureCredentials(f, cred, conf.tree);
      if configured.Some? {
        return configured;
      }
      var initialised := plugins.initCredentials(f, cred, conf.tree);
      if initialised.Some? {
        return initialised;
      }
      var session := plugins.sessionOf(f, cred, conf.tree);
      if session.Failure? {
        return Some(session.error);
      }
      sessions := sessions + [SessionInstance(conf.name, [], MergeStringMaps([conf.metricTags]), session.value)];
      err := None;
    }


    /**
     * `loadSourcePlugin`: appends the instances `SourceStep` describes and returns its error;
     * the instances built before an error stay appended.
     */
    method LoadSourcePlugin(reg: Registry, plugins: Plugins, name: string, conf: Source) returns (err: Option<string>)
      modifies this
      ensures var step := SourceStep(old(sessions), reg.sources, plugins, name, conf);
        sources == old(sources) + step.added && err == step.err
      ensures sessions == old(sessions)
    {
      var init := reg.GetSource(name);
      if init.Failure? {
        return Some(init.error);
      }
      var f := init.value;
      ghost var start := sources;
      for i := 0 to |conf.scopes|
        invariant sessions == old(sessions)
        invariant Wire(f, plugins, conf, Targets(sessions, conf.scopes[..i])).err == None
        invariant sources == start + Wire(f, plugins, conf, Targets(sessions, conf.scopes[..i])).added
      {
        var matched, _ := GetSessionsByScope(conf.scopes[i]);
        ghost var pre := Targets(sessions, conf.scopes[..i]);
        err := WireScope(f, plugins, conf, matched, start, pre);
        TargetsStep(sessions, conf.scopes, i);
        if err.Some? {
          TargetsAround(sessions, conf.scopes, i);
          WireErrorStays(f, plugins, conf, pre + Pick(sessions, matched), Targets(sessions, conf.scopes[i + 1..]));
          return;
        }
      }
      assert conf.scopes[..|conf.scopes|] == conf.scopes;
      err := None;
    }

    /** The sessions of one scope, in turn, stopping at the first error. */
    method WireScope(f: SourceFactory, plugins: Plugins, conf: Source, matched: seq<nat>,
                     ghost start: seq<SourceInstance>, ghost pre: seq<SessionInstance>) returns (err: Option<string>)
      modifies this
      requires forall i :: 0 <= i < |matched| ==> matched[i] < |sessions|
      requires Wire(f, plugins, conf, pre).err == None
      requires sources == start + Wire(f, plugins, conf, pre).added
      ensures sessions == old(sessions)
      ensures var w := Wire(f, plugins, conf, pre + Pick(sessions, matched));
        err == w.err && sources == start + w.added
    {
      err := None;
      assert pre + Pick(sessions, matched[..0]) == pre;
      for j := 0 to |matched|
        invariant err == None
        invariant sessions == old(sessions)
        invariant Wire(f, plugins, conf, pre + Pick(sessions, matched[..j])).err == None
        invariant sources == start + Wire(f, plugins, conf, pre + Pick(sessions, matched[..j])).added
      {
        err := WireAt(f, plugins, conf, matched, j, start, pre);
        if err.Some? {
          return;
        }
      }
      assert matched[..|matched|] == matched;
    }

    /** The `j`th session of the scope: the wiring either goes on or has ended with an error. */
    method WireAt(f: SourceFactory, plugins: Plugins, conf: Source, matched: seq<nat>, j: nat,
                  ghost start: seq<SourceInstance>, ghost pre: seq<SessionInstance>) returns (err: Option<string>)
      modifies this
      requires forall i :: 0 <= i < |matched| ==> matched[i] < |sessions|
      requires j < |matched|
      requires Wire(f, plugins, conf, pre + Pick(sessions, matched[..j])).err == None
      requires sources == start + Wire(f, plugins, conf, pre + Pick(sessions, matched[..j])).added
      ensures sessions == old(sessions)
      ensures err == None ==> Wire(f, plugins, conf, pre + Pick(sessions, matched[..j + 1])).err == None
      ensures err == None ==> sources == start + Wire(f, plugins, conf, pre + Pick(sessions, matched[..j + 1])).added
      ensures err.Some? ==> var w := Wire(f, plugins, conf, pre + Pick(sessions, matched));
        err == w.err && sources == start + w.added
    {
      ghost var done := pre + Pick(sessions, matched[..j]);
      PickStep(sessions, matched, j);
      assert pre + Pick(sessions, matched[..j + 1]) == done + [sessions[matched[j]]];
      err := WireOne(f, plugins, conf, sessions[matched[j]], start, done);
      if err.Some? {
        ConcatSplit(pre, Pick(sessions, matched), j + 1);
        WireErrorStays(f, plugins, conf, done + [sessions[matched[j]]], Pick(sessions, matched)[j + 1..]);
      }
    }

    /** The inner step of `loadSourcePlugin`: one instance for one matching session. */
    method WireOne(f: SourceFactory, plugins: Plugins, conf: Source, session: SessionInstance,
                   ghost start: seq<SourceInstance>, ghost done: seq<SessionInstance>) returns (err: Option<string>)
      modifies this
      requires Wire(f, plugins, conf, done).err == None
      requires sources == start + Wire(f, plugins, conf, done).added
      ensures sessions == old(sessions)
      ensures var w := Wire(f, plugins, conf, done + [session]);
        err == w.err && sources == start + w.added
    {
      WireStep(f, plugins, conf, done, session);
      var configured := plugins.configureSource(f, session.session, conf.tree);
      if configured.Some? {
        return configured;
      }
      var initialised := plugins.initSource(f, session.session, conf.tree);
      if initialised.Some? {
        return initialised;
      }
      sources := sources + [SourceInstance(MergeStringMaps([session.metricTags, conf.metricTags]),
                                           SourcePlugin(f, session.session, conf.tree))];
      err := None;
    }

    /** The declarations of one credential plugin, in turn, stopping at the first error. */
    method LoadCredentialGroup(reg: Registry, plugins: Plugins, name: string, confs: seq<Credential>,
                               ghost before: seq<(string, Credential)>) returns (err: Option<string>)
      modifies this
      requires LoadCredentials(reg.credentials, plugins, before) == Success(sessions)
      ensures sources == old(sources)
      ensures var loaded := LoadCredentials(reg.credentials, plugins, before + Named(name, confs));
        if loaded.Success? then err == None && sessions == loaded.value else err == Some(loaded.error)
    {
      assert before + Named(name, confs[..0]) == before;
      for j := 0 to |confs|
        invariant sources == old(sources)
        invariant LoadCredentials(reg.credentials, plugins, before + Named(name, confs[..j])) == Success(sessions)
      {
        err := LoadCredentialAt(reg, plugins, name, confs, j, before);
        if err.Some? {
          return;
        }
      }
      assert confs[..|confs|] == confs;
      err := None;
    }

    /** The `j`th declaration of the group: loading either goes on or has ended with an error. */
    method LoadCredentialAt(reg: Registry, plugins: Plugins, name: string, confs: seq<Credential>, j: nat,
                            ghost before: seq<(string, Credential)>) returns (err: Option<string>)
      modifies this
      requires j < |confs|
      requires LoadCredentials(reg.credentials, plugins, before + Named(name, confs[..j])) == Success(sessions)
      ensures sources == old(sources)
      ensures err == None ==> LoadCredentials(reg.credentials, plugins, before + Named(name, confs[..j + 1])) == Success(sessions)
      ensures err.Some? ==> var loaded := LoadCredentials(reg.credentials, plugins, before + Named(name, confs));
        loaded.Failure? && err == Some(loaded.error)
    {
      LoadCredentialsGroupStep(reg.credentials, plugins, before, name, confs, j, sessions);
      err := LoadCredentialPlugin(reg, plugins, name, confs[j]);
    }

    /** The declarations of one source plugin, in turn, stopping at the first error. */
    method LoadSourceGroup(reg: Registry, plugins: Plugins, name: string, confs: seq<Source>,
                           ghost before: seq<(string, Source)>) returns (err: Option<string>)
      modifies this
      requires LoadSources(sessions, reg.sources, plugins, before).err == None
      requires sources == LoadSources(sessions, reg.sources, plugins, before).added
      ensures sessions == old(sessions)
      ensures var wired := LoadSources(sessions, reg.sources, plugins, before + Named(name, confs));
        err == wired.err && sources == wired.added
    {
      err := None;
      assert before + Named(name, confs[..0]) == before;
      for j := 0 to |confs|
        invariant err == None
        invariant sessions == old(sessions)
        invariant LoadSources(sessions, reg.sources, plugins, before + Named(name, confs[..j])).err == None
        invariant sources == LoadSources(sessions, reg.sources, plugins, before + Named(name, confs[..j])).added
      {
        LoadSourcesGroupStep(sessions, reg.sources, plugins, before, name, confs, j);
        err := LoadSourcePlugin(reg, plugins, name, confs[j]);
        if err.Some? {
          return;
        }
      }
      assert confs[..|confs|] == confs;
    }
  }

  /**
   * `NewRunner`: every credential declaration, then every source declaration, visiting the
   * plugin names in the given orders; nil and the first error, or the runner.
   */
  method NewRunner(reg: Registry, plugins: Plugins, conf: Config, credentialOrder: seq<string>, sourceOrder: seq<string>)
    returns (runner: Runner?, err: Option<string>)
    requires Enumerates(credentialOrder, conf.credentials)
    requires Enumerates(sourceOrder, conf.sources)
    ensures var creds := LoadCredentials(reg.credentials, plugins, Declarations(conf.credentials, credentialOrder));
      creds.Failure? ==> runner == null && err == Some(creds.error)
    ensures var creds := LoadCredentials(reg.credentials, plugins, Declarations(conf.credentials, credentialOrder));
      creds.Success? ==>
        var wired := LoadSources(creds.value, reg.sources, plugins, Declarations(conf.sources, sourceOrder));
        if wired.err.Some? then runner == null && err == wired.err
        else err == None && runner != null && fresh(runner)
             && runner.sessions == creds.value && runner.sources == wired.added
  {
    var r := new Runner();
    for i := 0 to |credentialOrder|
      invariant fresh(r)
      invariant r.sources == []
      invariant LoadCredentials(reg.credentials, plugins, Declarations(conf.credentials, credentialOrder[..i])) == Success(r.sessions)
    {
      var pluginName := credentialOrder[i];
      ghost var before := Declarations(conf.credentials, credentialOrder[..i]);
      err := r.LoadCredentialGroup(reg, plugins, pluginName, conf.credentials[pluginName], before);
      DeclarationsStep(conf.credentials, credentialOrder, i);
      if err.Some? {
        DeclarationsSplit(conf.credentials, credentialOrder, i + 1);
        LoadCredentialsErrorStays(reg.credentials, plugins, Declarations(conf.credentials, credentialOrder[..i + 1]),
                                  Declarations(conf.credentials, credentialOrder[i + 1..]));
        return null, err;
      }
    }
    assert credentialOrder[..|credentialOrder|] == credentialOrder;

    ghost var loaded := r.sessions;
    assert LoadSources(loaded, reg.sources, plugins, Declarations(conf.sources, sourceOrder[..0])) == Wiring([], None);
    for i := 0 to |sourceOrder|
      invariant fresh(r)
      invariant r.sessions == loaded
      invariant LoadSources(loaded, reg.sources, plugins, Declarations(conf.sources, sourceOrder[..i])).err == None
      invariant r.sources == LoadSources(loaded, reg.sources, plugins, Declarations(conf.sources, sourceOrder[..i])).added
    {
      var pluginName := sourceOrder[i];
      ghost var before := Declarations(conf.sources, sourceOrder[..i]);
      err := r.LoadSourceGroup(reg, plugins, pluginName, conf.sources[pluginName], before);
      DeclarationsStep(conf.sources, sourceOrder, i);
      if err.Some? {
        DeclarationsSplit(conf.sources, sourceOrder, i + 1);
        LoadSourcesErrorStays(loaded, reg.sources, plugins, Declarations(conf.sources, sourceOrder[..i + 1]),
                              Declarations(conf.sources, sourceOrder[i + 1..]));
        return null, err;
      }
    }
    assert sourceOrder[..|sourceOrder|] == sourceOrder;
    return r, None;
  }
}
