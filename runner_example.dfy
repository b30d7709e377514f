/**
 * The two configurations of pkg/core/runner_test.go, run through the loading functions with
 * plugins that always succeed.
 */
module RunnerExample {
  import opened Wrappers
  import opened Util
  import opened Config
  import opened Registry
  import opened RunnerSpec
  import RunnerFacts

  /** Plugins whose configuration, initialisation and session creation never fail. */
  ghost predicate Succeeding(plugins: Plugins) {
    && (forall f, p, t :: plugins.configureCredentials(f, p, t) == None)
    && (forall f, p, t :: plugins.initCredentials(f, p, t) == None)
    && (forall f, p, t :: plugins.sessionOf(f, p, t).Success?)
    && (forall f, s, t :: plugins.configureSource(f, s, t) == None)
    && (forall f, s, t :: plugins.initSource(f, s, t) == None)
  }

  const Aws := CredentialFactory(0)
  const IamUsers := SourceFactory(1)

  /**
   * "dependent sessions": a session named `root`, then an unnamed one created from it. Both
   * load, in declaration order, and the second is made from the first's session.
   */
  lemma DependentSessions(plugins: Plugins)
    requires Succeeding(plugins)
    ensures var loaded := LoadCredentials(map["aws" := Aws], plugins,
                                          [("aws", Credential("root", "", [], map[], Tree(0))),
                                           ("aws", Credential("", "root", [], map[], Tree(1)))]);
      && loaded.Success? && |loaded.value| == 2
      && loaded.value[0].name == "root" && loaded.value[1].name == ""
      && loaded.value[1].session == plugins.sessionOf(Aws, Some(loaded.value[0].session), Tree(1)).value
      && LoadSources(loaded.value, map[], plugins, []) == Wiring([], None)
  {
    var factories := map["aws" := Aws];
    var root := Credential("root", "", [], map[], Tree(0));
    var child := Credential("", "root", [], map[], Tree(1));
    var decls := [("aws", root), ("aws", child)];
    assert decls[..1] == [("aws", root)];
    assert [("aws", root)][..0] == [];
    var first := CredentialStep([], factories, plugins, "aws", root);
    assert first.Success?;
    RunnerFacts.CredentialLoaded([], factories, plugins, "aws", root);
    var sessions := [first.value];
    assert FindSession(sessions, "root") == Some(0);
    var second := CredentialStep(sessions, factories, plugins, "aws", child);
    assert second.Success?;
    RunnerFacts.CredentialLoaded(sessions, factories, plugins, "aws", child);
  }

  /** The sessions "load source plugin for all sessions in scope" declares. */
  function ScopedDecls(): seq<(string, Credential)> {
    [("aws", Credential("root1", "", ["all"], map["foo" := "a"], Tree(0))),
     ("aws", Credential("root2", "", ["all"], map["foo" := "c"], Tree(1)))]
  }

  /** Its source declaration: every session in scope `all`, tagged `bar=b`. */
  function IamSource(): Source {
    Source("", ["all"], map["bar" := "b"], Tree(2))
  }

  /**
   * As written, the sessions lose their `scopes`, so the source finds no session and the
   * runner ends with no source, where the test expects two.
   */
  lemma ScopedSourceAsWritten(plugins: Plugins)
    requires Succeeding(plugins)
    ensures var loaded := LoadCredentials(map["aws" := Aws], plugins, ScopedDecls());
      && loaded.Success? && |loaded.value| == 2
      && LoadSources(loaded.value, map["aws_iam_users" := IamUsers], plugins, [("aws_iam_users", IamSource())])
         == Wiring([], None)
  {
    var factories := map["aws" := Aws];
    var decls := ScopedDecls();
    assert decls[..1] == [decls[0]];
    assert [decls[0]][..0] == [];
    var first := CredentialStep([], factories, plugins, "aws", decls[0].1);
    assert first.Success?;
    var second := CredentialStep([first.value], factories, plugins, "aws", decls[1].1);
    assert second.Success?;
    RunnerFacts.LoadedSessionsUnscoped(factories, plugins, decls);
    var loaded := LoadCredentials(factories, plugins, decls).value;
    var srcs := [("aws_iam_users", IamSource())];
    RunnerFacts.UnscopedSources(loaded, map["aws_iam_users" := IamUsers], plugins, srcs);
    assert srcs[0].0 in map["aws_iam_users" := IamUsers];
  }

  /**
   * Had the sessions kept their declared scopes, the source would be wired once per session
   * with the tags the test expects: `foo` from the session and `bar` from the source.
   */
  lemma ScopedSourceIntended(plugins: Plugins, s1: Session, s2: Session)
    requires Succeeding(plugins)
    ensures var sessions := [SessionInstance("root1", ["all"], map["foo" := "a"], s1),
                             SessionInstance("root2", ["all"], map["foo" := "c"], s2)];
      var step := SourceStep(sessions, map["aws_iam_users" := IamUsers], plugins, "aws_iam_users", IamSource());
      && step.err == None && |step.added| == 2
      && step.added[0].metricTags == map["foo" := "a", "bar" := "b"]
      && step.added[1].metricTags == map["foo" := "c", "bar" := "b"]
  {
    var sessions := [SessionInstance("root1", ["all"], map["foo" := "a"], s1),
                     SessionInstance("root2", ["all"], map["foo" := "c"], s2)];
    IntendedWiring(plugins, sessions);
    IntendedTags(plugins, sessions[0], "a");
    IntendedTags(plugins, sessions[1], "c");
  }

  /** A session tagged `foo` gives the source's instance both `foo` and the source's own `bar`. */
  lemma IntendedTags(plugins: Plugins, session: SessionInstance, foo: string)
    requires Succeeding(plugins)
    requires session.metricTags == map["foo" := foo]
    ensures SourceInstanceFor(session, IamUsers, plugins, IamSource()).Success?
    ensures SourceInstanceFor(session, IamUsers, plugins, IamSource()).value.metricTags == map["foo" := foo, "bar" := "b"]
  {
    RunnerFacts.SourceInstanceTags(session, IamUsers, plugins, IamSource());
    assert map["foo" := foo] + map["bar" := "b"] == map["foo" := foo, "bar" := "b"];
  }

  /** Both sessions in scope `all` get an instance, in session order. */
  lemma IntendedWiring(plugins: Plugins, sessions: seq<SessionInstance>)
    requires Succeeding(plugins)
    requires |sessions| == 2 && sessions[0].scopes == ["all"] && sessions[1].scopes == ["all"]
    ensures SourceStep(sessions, map["aws_iam_users" := IamUsers], plugins, "aws_iam_users", IamSource())
         == Wiring([SourceInstanceFor(sessions[0], IamUsers, plugins, IamSource()).value,
                    SourceInstanceFor(sessions[1], IamUsers, plugins, IamSource()).value], None)
  {
    BothTargeted(sessions);
    assert sessions == [sessions[0], sessions[1]];
    WireTwo(IamUsers, plugins, IamSource(), sessions[0], sessions[1]);
  }

  lemma WireTwo(f: SourceFactory, plugins: Plugins, conf: Source, a: SessionInstance, b: SessionInstance)
    requires SourceInstanceFor(a, f, plugins, conf).Success? && SourceInstanceFor(b, f, plugins, conf).Success?
    ensures Wire(f, plugins, conf, [a, b])
         == Wiring([SourceInstanceFor(a, f, plugins, conf).value, SourceInstanceFor(b, f, plugins, conf).value], None)
  {
    WireOne(f, plugins, conf, a);
    WireStep(f, plugins, conf, [a], b);
    assert [a] + [b] == [a, b];
    var ia, ib := SourceInstanceFor(a, f, plugins, conf).value, SourceInstanceFor(b, f, plugins, conf).value;
    assert [ia] + [ib] == [ia, ib];
  }

  /** One target that can be wired gives one instance. */
  lemma WireOne(f: SourceFactory, plugins: Plugins, conf: Source, a: SessionInstance)
    requires SourceInstanceFor(a, f, plugins, conf).Success?
    ensures Wire(f, plugins, conf, [a]) == Wiring([SourceInstanceFor(a, f, plugins, conf).value], None)
  {
    WireStep(f, plugins, conf, [], a);
    assert [] + [a] == [a];
  }

  lemma BothTargeted(sessions: seq<SessionInstance>)
    requires |sessions| == 2 && sessions[0].scopes == ["all"] && sessions[1].scopes == ["all"]
    ensures Targets(sessions, ["all"]) == sessions
  {
    BothInScope(sessions);
    PickBoth(sessions);
    assert ["all"][..0] == [] && ["all"][0] == "all";
    assert Targets(sessions, ["all"]) == Targets(sessions, []) + Pick(sessions, [0, 1]);
  }

  lemma PickBoth(sessions: seq<SessionInstance>)
    requires |sessions| == 2
    ensures Pick(sessions, [0, 1]) == sessions
  {
    var picked := Pick(sessions, [0, 1]);
    assert |picked| == 2 && picked[0] == sessions[0] && picked[1] == sessions[1];
  }

  lemma BothInScope(sessions: seq<SessionInstance>)
    requires |sessions| == 2 && sessions[0].scopes == ["all"] && sessions[1].scopes == ["all"]
    ensures ScopeMatches(sessions, "all") == [0, 1]
  {
    assert "all" in sessions[0].scopes && "all" in sessions[1].scopes;
    assert sessions[..1][..0] == [];
    assert ScopeMatches(sessions[..1], "all") == [0];
  }
}
