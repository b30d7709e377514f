/**
 * Properties of the runner's loading functions: which error comes first, what a loaded
 * session holds, what wiring a source produces, and the consequence of the loaded sessions
 * never receiving their declaration's scopes.
 */
module RunnerFacts {
  import opened Wrappers
  import opened Util
  import opened Config
  import opened Registry
  import opened RunnerSpec

  /** The factory lookup comes first: an unknown plugin fails whatever `from` says. */
  lemma CredentialUnknownPlugin(sessions: seq<SessionInstance>, factories: map<string, CredentialFactory>,
                                plugins: Plugins, name: string, conf: Credential)
    requires name !in factories
    ensures CredentialStep(sessions, factories, plugins, name, conf) == Failure("credential plugin not found: " + name)
  {
    assert Lookup(factories, CredentialNotFound, name).Failure?;
  }

  /** A `from` that names no earlier session fails before the plugin is configured. */
  lemma CredentialUnknownParent(sessions: seq<SessionInstance>, factories: map<string, CredentialFactory>,
                                plugins: Plugins, name: string, conf: Credential)
    requires name in factories
    requires conf.from != "" && forall j :: 0 <= j < |sessions| ==> sessions[j].name != conf.from
    ensures CredentialStep(sessions, factories, plugins, name, conf) == Failure("session not found: " + conf.from)
  {
    assert FindSession(sessions, conf.from).None?;
  }

  /**
   * A loaded session carries the declaration's name and exactly its tags, no scopes, and the
   * session the plugin produced from the parent `from` resolved to (none without `from`).
   */
  lemma CredentialLoaded(sessions: seq<SessionInstance>, factories: map<string, CredentialFactory>,
                         plugins: Plugins, name: string, conf: Credential)
    requires CredentialStep(sessions, factories, plugins, name, conf).Success?
    ensures var s := CredentialStep(sessions, factories, plugins, name, conf).value;
      && name in factories
      && s.name == conf.name && s.scopes == [] && s.metricTags == conf.metricTags
      && (conf.from == "" ==> s.session == plugins.sessionOf(factories[name], None, conf.tree).value)
      && (conf.from != "" ==>
            FindSession(sessions, conf.from).Some?
            && s.session == plugins.sessionOf(factories[name],
                                              Some(sessions[FindSession(sessions, conf.from).value].session),
                                              conf.tree).value)
  {
    MergeOne(conf.metricTags);
  }

  /** Every session of a successful credential pass, one per declaration and in order, has no scopes. */
  lemma {:induction false} LoadedSessionsUnscoped(factories: map<string, CredentialFactory>, plugins: Plugins,
                                                  decls: seq<(string, Credential)>)
    requires LoadCredentials(factories, plugins, decls).Success?
    ensures var sessions := LoadCredentials(factories, plugins, decls).value;
      && |sessions| == |decls|
      && forall i :: 0 <= i < |sessions| ==>
           sessions[i].scopes == [] && sessions[i].name == decls[i].1.name
           && sessions[i].metricTags == decls[i].1.metricTags
    decreases |decls|
  {
    if |decls| > 0 {
      var n := |decls| - 1;
      var earlier := LoadCredentials(factories, plugins, decls[..n]);
      assert earlier.Success?;
      LoadedSessionsUnscoped(factories, plugins, decls[..n]);
      CredentialLoaded(earlier.value, factories, plugins, decls[n].0, decls[n].1);
    }
  }

  /** The sessions have no scopes. */
  ghost predicate Unscoped(sessions: seq<SessionInstance>) {
    forall k :: 0 <= k < |sessions| ==> sessions[k].scopes == []
  }

  /** Among unscoped sessions a scope finds no session. */
  lemma {:induction false} UnscopedMatches(sessions: seq<SessionInstance>, scope: string)
    requires Unscoped(sessions)
    ensures ScopeMatches(sessions, scope) == []
    decreases |sessions|
  {
    if |sessions| > 0 {
      var n := |sessions| - 1;
      assert forall k :: 0 <= k < n ==> sessions[..n][k] == sessions[k];
      UnscopedMatches(sessions[..n], scope);
      assert sessions[n].scopes == [];
    }
  }

  /** Among unscoped sessions no list of scopes finds anything. */
  lemma {:induction false} UnscopedTargets(sessions: seq<SessionInstance>, scopes: seq<string>)
    requires Unscoped(sessions)
    ensures Targets(sessions, scopes) == []
    decreases |scopes|
  {
    if |scopes| > 0 {
      UnscopedMatches(sessions, scopes[|scopes| - 1]);
      UnscopedTargets(sessions, scopes[..|scopes| - 1]);
    }
  }

  /** Among unscoped sessions a source declaration wires nothing; only its lookup can fail. */
  lemma UnscopedSourceStep(sessions: seq<SessionInstance>, factories: map<string, SourceFactory>,
                           plugins: Plugins, name: string, conf: Source)
    requires Unscoped(sessions)
    ensures var step := SourceStep(sessions, factories, plugins, name, conf);
      && step.added == []
      && (step.err.None? <==> name in factories)
      && (step.err.Some? ==> step.err.value == "source plugin not found: " + name)
  {
    UnscopedTargets(sessions, conf.scopes);
  }

  /**
   * Among unscoped sessions the source pass adds nothing, and fails exactly when a
   * declaration names an unknown plugin.
   */
  lemma {:induction false} UnscopedSources(sessions: seq<SessionInstance>, factories: map<string, SourceFactory>,
                                           plugins: Plugins, decls: seq<(string, Source)>)
    requires Unscoped(sessions)
    ensures var w := LoadSources(sessions, factories, plugins, decls);
      && w.added == []
      && (w.err.None? <==> forall i :: 0 <= i < |decls| ==> decls[i].0 in factories)
    decreases |decls|
  {
    if |decls| > 0 {
      var n := |decls| - 1;
      UnscopedSources(sessions, factories, plugins, decls[..n]);
      UnscopedSourceStep(sessions, factories, plugins, decls[n].0, decls[n].1);
      var w := LoadSources(sessions, factories, plugins, decls[..n]);
      if w.err.Some? {
        var i :| 0 <= i < n && decls[..n][i].0 !in factories;
        assert decls[i].0 !in factories;
      } else {
        assert forall i :: 0 <= i < n ==> decls[i].0 == decls[..n][i].0;
      }
    }
  }

  /**
   * `NewRunner` never wires a source: whatever the declarations and their scopes, the
   * sessions it loads have none, so the source pass adds no instance.
   */
  lemma NoSourceEverWired(credFactories: map<string, CredentialFactory>, srcFactories: map<string, SourceFactory>,
                          plugins: Plugins, creds: seq<(string, Credential)>, srcs: seq<(string, Source)>)
    requires LoadCredentials(credFactories, plugins, creds).Success?
    ensures LoadSources(LoadCredentials(credFactories, plugins, creds).value, srcFactories, plugins, srcs).added == []
  {
    LoadedSessionsUnscoped(credFactories, plugins, creds);
    UnscopedSources(LoadCredentials(credFactories, plugins, creds).value, srcFactories, plugins, srcs);
  }

  /** A source instance: the session's tags overridden by the declaration's, and the plugin built for that session. */
  lemma SourceInstanceTags(session: SessionInstance, f: SourceFactory, plugins: Plugins, conf: Source)
    requires SourceInstanceFor(session, f, plugins, conf).Success?
    ensures var inst := SourceInstanceFor(session, f, plugins, conf).value;
      && inst.metricTags == session.metricTags + conf.metricTags
      && inst.plugin == SourcePlugin(f, session.session, conf.tree)
  {
    MergeTwo(session.metricTags, conf.metricTags);
  }

  /**
   * Wiring without an error builds one instance per target, in order; with an error it
   * builds the instances of the targets before the first that fails, and reports that one's
   * error.
   */
  lemma {:induction false} WireOutcome(f: SourceFactory, plugins: Plugins, conf: Source, targets: seq<SessionInstance>)
    ensures var w := Wire(f, plugins, conf, targets);
      w.err.None? ==>
        |w.added| == |targets|
        && forall i :: 0 <= i < |targets| ==> SourceInstanceFor(targets[i], f, plugins, conf) == Success(w.added[i])
    ensures var w := Wire(f, plugins, conf, targets);
      w.err.Some? ==>
        |w.added| < |targets|
        && SourceInstanceFor(targets[|w.added|], f, plugins, conf) == Failure(w.err.value)
        && forall i :: 0 <= i < |w.added| ==> SourceInstanceFor(targets[i], f, plugins, conf) == Success(w.added[i])
    decreases |targets|
  {
    if |targets| > 0 {
      var n := |targets| - 1;
      var t := targets[..n];
      WireOutcome(f, plugins, conf, t);
      assert forall i :: 0 <= i < n ==> targets[i] == t[i];
    }
  }

  /** A scope listed twice by a source declaration wires its sessions twice. */
  lemma RepeatedScope(sessions: seq<SessionInstance>, scope: string)
    ensures Targets(sessions, [scope, scope]) == Targets(sessions, [scope]) + Targets(sessions, [scope])
  {
    TargetsAppend(sessions, [scope], [scope]);
    assert [scope] + [scope] == [scope, scope];
  }
}
