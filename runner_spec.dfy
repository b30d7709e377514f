/**
 * What pkg/core/runner.go computes, as functions of the sessions loaded so far, the registry
 * maps and the plugins' behaviour: the session a name finds, the sessions a scope finds,
 * the session one credential declaration adds, the source instances one source declaration
 * adds, and the two passes of `NewRunner`.
 *
 * A `*SessionInstance` is identified by its position in `Runner.Sessions`: every instance is
 * appended once, as a new pointer, so pointer identity and position coincide.
 */
module RunnerSpec {
  import opened Wrappers
  import opened Util
  import opened Config
  import opened Registry

  /** `SessionInstance`. */
  datatype SessionInstance = SessionInstance(
    name: string,
    scopes: seq<string>,
    metricTags: map<string, string>,
    session: Session)

  /** The plugin value `init(session)` returned and `Configure` filled from the tree. */
  datatype SourcePlugin = SourcePlugin(factory: SourceFactory, session: Session, tree: Tree)

  /** `SourceInstance`. */
  datatype SourceInstance = SourceInstance(metricTags: map<string, string>, plugin: SourcePlugin)

  /** What a source pass appends, and the error that ended it, if any. */
  datatype Wiring = Wiring(added: seq<SourceInstance>, err: Option<string>)

  /**
   * `getSessionByName`, as the position it finds: sessions without a name are skipped, and
   * the first session with the name wins.
   */
  function FindSession(sessions: seq<SessionInstance>, name: string): (r: Option<nat>)
    ensures r.Some? ==> r.value < |sessions| && name != "" && sessions[r.value].name == name
    ensures r.Some? ==> forall j :: 0 <= j < r.value ==> sessions[j].name != name
    ensures r.None? ==> name == "" || forall j :: 0 <= j < |sessions| ==> sessions[j].name != name
    decreases |sessions|
  {
    if |sessions| == 0 then None
    else
      var n := |sessions| - 1;
      var r := FindSession(sessions[..n], name);
      assert forall j :: 0 <= j < n ==> sessions[..n][j] == sessions[j];
      match r
      case Some(i) => Some(i)
      case None => if sessions[n].name != "" && sessions[n].name == name then Some(n) else None
  }

  /** The error `getSessionByName` returns. */
  function SessionNotFound(name: string): string {
    "session not found: " + name
  }

  /**
   * `getSessionsByScope`, as positions: the sessions whose scopes list `scope`, in session
   * order, each once.
   */
  function ScopeMatches(sessions: seq<SessionInstance>, scope: string): (r: seq<nat>)
    ensures forall i :: 0 <= i < |r| ==> r[i] < |sessions| && scope in sessions[r[i]].scopes
    ensures forall i, j :: 0 <= i < j < |r| ==> r[i] < r[j]
    decreases |sessions|
  {
    if |sessions| == 0 then []
    else
      var n := |sessions| - 1;
      var r := ScopeMatches(sessions[..n], scope);
      assert forall j :: 0 <= j < n ==> sessions[..n][j] == sessions[j];
      r + (if scope in sessions[n].scopes then [n] else [])
  }

  /** No session listing the scope is missed. */
  lemma {:induction false} ScopeMatchesComplete(sessions: seq<SessionInstance>, scope: string, k: nat)
    requires k < |sessions| && scope in sessions[k].scopes
    ensures k in ScopeMatches(sessions, scope)
    decreases |sessions|
  {
    var n := |sessions| - 1;
    if k < n {
      assert sessions[..n][k] == sessions[k];
      ScopeMatchesComplete(sessions[..n], scope, k);
    }
  }

  /** The parent session handle of a credential declaration with the given `from`. */
  function Parent(sessions: seq<SessionInstance>, from: string): Result<Option<Session>, string> {
    if from == "" then Success(None)
    else
      match FindSession(sessions, from)
      case None => Failure(SessionNotFound(from))
      case Some(i) => Success(Some(sessions[i].session))
  }

  /**
   * `loadCredentialPlugin`: the session instance it appends, or its error. The factory is
   * looked up first, then `from` is resolved, then the plugin is configured, initialised
   * and asked for its session. The instance's `Scopes` is left empty.
   */
  function CredentialStep(sessions: seq<SessionInstance>, factories: map<string, CredentialFactory>,
                          plugins: Plugins, name: string, conf: Credential): Result<SessionInstance, string>
  {
    match Lookup(factories, CredentialNotFound, name)
    case Failure(e) => Failure(e)
    case Success(f) =>
      match Parent(sessions, conf.from)
      case Failure(e) => Failure(e)
      case Success(parent) =>
        match plugins.configureCredentials(f, parent, conf.tree)
        case Some(e) => Failure(e)
        case None =>
          match plugins.initCredentials(f, parent, conf.tree)
          case Some(e) => Failure(e)
          case None =>
            match plugins.sessionOf(f, parent, conf.tree)
            case Failure(e) => Failure(e)
            case Success(s) => Success(SessionInstance(conf.name, [], MergeStringMaps([conf.metricTags]), s))
  }

  /** The sessions at the given positions. */
  function Pick(sessions: seq<SessionInstance>, ks: seq<nat>): (r: seq<SessionInstance>)
    requires forall i :: 0 <= i < |ks| ==> ks[i] < |sessions|
    ensures |r| == |ks|
    ensures forall i :: 0 <= i < |ks| ==> r[i] == sessions[ks[i]]
  {
    seq(|ks|, i requires 0 <= i < |ks| => sessions[ks[i]])
  }

  /** The sessions the listed scopes find, scope by scope, in the order they are visited. */
  function Targets(sessions: seq<SessionInstance>, scopes: seq<string>): seq<SessionInstance>
    decreases |scopes|
  {
    if |scopes| == 0 then []
    else Targets(sessions, scopes[..|scopes| - 1]) + Pick(sessions, ScopeMatches(sessions, scopes[|scopes| - 1]))
  }

  /** One source instance: configure, initialise, then tag with the merged metric tags. */
  function SourceInstanceFor(session: SessionInstance, f: SourceFactory, plugins: Plugins, conf: Source)
    : Result<SourceInstance, string>
  {
    match plugins.configureSource(f, session.session, conf.tree)
    case Some(e) => Failure(e)
    case None =>
      match plugins.initSource(f, session.session, conf.tree)
      case Some(e) => Failure(e)
      case None =>
        Success(SourceInstance(MergeStringMaps([session.metricTags, conf.metricTags]),
                               SourcePlugin(f, session.session, conf.tree)))
  }

  /** The instances built for the target sessions in order, up to the first failure. */
  function Wire(f: SourceFactory, plugins: Plugins, conf: Source, targets: seq<SessionInstance>): Wiring
    decreases |targets|
  {
    if |targets| == 0 then Wiring([], None)
    else
      var w := Wire(f, plugins, conf, targets[..|targets| - 1]);
      if w.err.Some? then w
      else
        match SourceInstanceFor(targets[|targets| - 1], f, plugins, conf)
        case Failure(e) => Wiring(w.added, Some(e))
        case Success(inst) => Wiring(w.added + [inst], None)
  }

  /**
   * `loadSourcePlugin`: the factory is looked up first, whether or not any scope is listed;
   * then one instance per (listed scope, matching session) pair. On an error the instances
   * built before it stay appended.
   */
  function SourceStep(sessions: seq<SessionInstance>, factories: map<string, SourceFactory>,
                      plugins: Plugins, name: string, conf: Source): Wiring
  {
    match Lookup(factories, SourceNotFound, name)
    case Failure(e) => Wiring([], Some(e))
    case Success(f) => Wire(f, plugins, conf, Targets(sessions, conf.scopes))
  }

  /** Every declaration of a plugin, paired with the plugin's name. */
  function Named<T>(name: string, decls: seq<T>): (r: seq<(string, T)>)
    ensures |r| == |decls|
    ensures forall i :: 0 <= i < |r| ==> r[i] == (name, decls[i])
  {
    seq(|decls|, i requires 0 <= i < |decls| => (name, decls[i]))
  }

  /** The declarations of a map of lists, visiting the names in `order`. */
  function Declarations<T>(groups: map<string, seq<T>>, order: seq<string>): seq<(string, T)>
    requires forall k :: k in order ==> k in groups
    decreases |order|
  {
    if |order| == 0 then []
    else Declarations(groups, order[..|order| - 1]) + Named(order[|order| - 1], groups[order[|order| - 1]])
  }

  /** The credential pass of `NewRunner`: each declaration in turn, stopping at the first error. */
  function LoadCredentials(factories: map<string, CredentialFactory>, plugins: Plugins,
                           decls: seq<(string, Credential)>): Result<seq<SessionInstance>, string>
    decreases |decls|
  {
    if |decls| == 0 then Success([])
    else
      var d := decls[|decls| - 1];
      match LoadCredentials(factories, plugins, decls[..|decls| - 1])
      case Failure(e) => Failure(e)
      case Success(sessions) => Extend(sessions, factories, plugins, d)
  }

  /** The sessions after one more credential declaration, or its error. */
  function Extend(sessions: seq<SessionInstance>, factories: map<string, CredentialFactory>, plugins: Plugins,
                  d: (string, Credential)): Result<seq<SessionInstance>, string>
  {
    match CredentialStep(sessions, factories, plugins, d.0, d.1)
    case Failure(e) => Failure(e)
    case Success(inst) => Success(sessions + [inst])
  }

  /** The source pass of `NewRunner` over fixed sessions, stopping at the first error. */
  function LoadSources(sessions: seq<SessionInstance>, factories: map<string, SourceFactory>, plugins: Plugins,
                       decls: seq<(string, Source)>): Wiring
    decreases |decls|
  {
    if |decls| == 0 then Wiring([], None)
    else
      var w := LoadSources(sessions, factories, plugins, decls[..|decls| - 1]);
      if w.err.Some? then w
      else
        var d := decls[|decls| - 1];
        var step := SourceStep(sessions, factories, plugins, d.0, d.1);
        Wiring(w.added + step.added, step.err)
  }

  // Steps of the functions above, stated on the terms the loaders' loops produce.

  lemma {:induction false} TargetsAppend(sessions: seq<SessionInstance>, a: seq<string>, b: seq<string>)
    ensures Targets(sessions, a + b) == Targets(sessions, a) + Targets(sessions, b)
    decreases |b|
  {
    if |b| == 0 {
      assert a + b == a;
    } else {
      var c := b[..|b| - 1];
      var last := Pick(sessions, ScopeMatches(sessions, b[|b| - 1]));
      assert (a + b)[..|a + b| - 1] == a + c;
      assert (a + b)[|a + b| - 1] == b[|b| - 1];
      assert Targets(sessions, a + b) == Targets(sessions, a + c) + last;
      assert Targets(sessions, b) == Targets(sessions, c) + last;
      TargetsAppend(sessions, a, c);
      Regroup(Targets(sessions, a + b), Targets(sessions, a + c), Targets(sessions, a),
              Targets(sessions, b), Targets(sessions, c), last);
    }
  }

  lemma Regroup<T>(x: seq<T>, y: seq<T>, a: seq<T>, z: seq<T>, w: seq<T>, last: seq<T>)
    requires x == y + last && z == w + last && y == a + w
    ensures x == a + z
  {
  }

  /** After one more scope, the targets are the earlier ones and that scope's sessions. */
  lemma TargetsStep(sessions: seq<SessionInstance>, scopes: seq<string>, i: nat)
    requires i < |scopes|
    ensures Targets(sessions, scopes[..i + 1]) == Targets(sessions, scopes[..i]) + Pick(sessions, ScopeMatches(sessions, scopes[i]))
  {
    assert scopes[..i + 1][..i] == scopes[..i];
  }

  /** One target more: its instance is appended, or its error ends the wiring. */
  lemma WireStep(f: SourceFactory, plugins: Plugins, conf: Source, t: seq<SessionInstance>, x: SessionInstance)
    ensures Wire(f, plugins, conf, t + [x])
         == (var w := Wire(f, plugins, conf, t);
             if w.err.Some? then w
             else match SourceInstanceFor(x, f, plugins, conf)
                  case Failure(e) => Wiring(w.added, Some(e))
                  case Success(inst) => Wiring(w.added + [inst], None))
  {
    assert (t + [x])[..|t|] == t;
  }

  /** Once wiring has failed, later targets change nothing. */
  lemma {:induction false} WireErrorStays(f: SourceFactory, plugins: Plugins, conf: Source,
                                          t: seq<SessionInstance>, u: seq<SessionInstance>)
    requires Wire(f, plugins, conf, t).err.Some?
    ensures Wire(f, plugins, conf, t + u) == Wire(f, plugins, conf, t)
    decreases |u|
  {
    if |u| == 0 {
      assert t + u == t;
    } else {
      var v := u[..|u| - 1];
      assert (t + u)[..|t + u| - 1] == t + v;
      WireErrorStays(f, plugins, conf, t, v);
    }
  }

  lemma PickStep(sessions: seq<SessionInstance>, ks: seq<nat>, j: nat)
    requires forall i :: 0 <= i < |ks| ==> ks[i] < |sessions|
    requires j < |ks|
    ensures Pick(sessions, ks[..j + 1]) == Pick(sessions, ks[..j]) + [sessions[ks[j]]]
    ensures Pick(sessions, ks)[..j + 1] == Pick(sessions, ks[..j + 1])
  {
  }

  lemma NamedStep<T>(name: string, decls: seq<T>, j: nat)
    requires j < |decls|
    ensures Named(name, decls[..j + 1]) == Named(name, decls[..j]) + [(name, decls[j])]
  {
  }

  lemma {:induction false} DeclarationsAppend<T>(groups: map<string, seq<T>>, a: seq<string>, b: seq<string>)
    requires forall k :: k in a ==> k in groups
    requires forall k :: k in b ==> k in groups
    ensures Declarations(groups, a + b) == Declarations(groups, a) + Declarations(groups, b)
    decreases |b|
  {
    if |b| == 0 {
      assert a + b == a;
    } else {
      var c := b[..|b| - 1];
      var k := b[|b| - 1];
      assert (a + b)[..|a + b| - 1] == a + c;
      assert (a + b)[|a + b| - 1] == k;
      assert Declarations(groups, a + b) == Declarations(groups, a + c) + Named(k, groups[k]);
      assert Declarations(groups, b) == Declarations(groups, c) + Named(k, groups[k]);
      DeclarationsAppend(groups, a, c);
    }
  }

  /** After one more plugin name, the declarations are the earlier ones and that plugin's. */
  lemma DeclarationsStep<T>(groups: map<string, seq<T>>, order: seq<string>, i: nat)
    requires forall k :: k in order ==> k in groups
    requires i < |order|
    ensures Declarations(groups, order[..i + 1]) == Declarations(groups, order[..i]) + Named(order[i], groups[order[i]])
  {
    assert order[..i + 1][..i] == order[..i];
  }

  /** The declarations still to come after the first `i` names. */
  lemma DeclarationsSplit<T>(groups: map<string, seq<T>>, order: seq<string>, i: nat)
    requires forall k :: k in order ==> k in groups
    requires i <= |order|
    ensures Declarations(groups, order) == Declarations(groups, order[..i]) + Declarations(groups, order[i..])
  {
    assert order == order[..i] + order[i..];
    DeclarationsAppend(groups, order[..i], order[i..]);
  }

  lemma LoadCredentialsStep(factories: map<string, CredentialFactory>, plugins: Plugins,
                            decls: seq<(string, Credential)>, d: (string, Credential))
    ensures LoadCredentials(factories, plugins, decls + [d])
         == (var r := LoadCredentials(factories, plugins, decls);
             if r.Failure? then r else Extend(r.value, factories, plugins, d))
  {
    assert (decls + [d])[..|decls|] == decls;
  }

  /**
   * Declaration `j` of a group, after the earlier ones loaded `sessions`: its step either
   * extends the pass by one session or is the error of the whole group.
   */
  lemma LoadCredentialsGroupStep(factories: map<string, CredentialFactory>, plugins: Plugins,
                                 before: seq<(string, Credential)>, name: string, confs: seq<Credential>, j: nat,
                                 sessions: seq<SessionInstance>)
    requires j < |confs|
    requires LoadCredentials(factories, plugins, before + Named(name, confs[..j])) == Success(sessions)
    ensures var step := CredentialStep(sessions, factories, plugins, name, confs[j]);
      && (step.Success? ==> LoadCredentials(factories, plugins, before + Named(name, confs[..j + 1])) == Success(sessions + [step.value]))
      && (step.Failure? ==> LoadCredentials(factories, plugins, before + Named(name, confs)) == Failure(step.error))
  {
    var done := before + Named(name, confs[..j]);
    NamedStep(name, confs, j);
    assert before + Named(name, confs[..j + 1]) == done + [(name, confs[j])];
    LoadCredentialsStep(factories, plugins, done, (name, confs[j]));
    if CredentialStep(sessions, factories, plugins, name, confs[j]).Failure? {
      NamedSplit(before, name, confs, j + 1);
      LoadCredentialsErrorStays(factories, plugins, done + [(name, confs[j])], Named(name, confs)[j + 1..]);
    }
  }

  /** Once the credential pass has failed, later declarations change nothing. */
  lemma {:induction false} LoadCredentialsErrorStays(factories: map<string, CredentialFactory>, plugins: Plugins,
                                                     decls: seq<(string, Credential)>, more: seq<(string, Credential)>)
    requires LoadCredentials(factories, plugins, decls).Failure?
    ensures LoadCredentials(factories, plugins, decls + more) == LoadCredentials(factories, plugins, decls)
    decreases |more|
  {
    if |more| == 0 {
      assert decls + more == decls;
    } else {
      var m := more[..|more| - 1];
      assert (decls + more)[..|decls + more| - 1] == decls + m;
      LoadCredentialsErrorStays(factories, plugins, decls, m);
    }
  }

  lemma LoadSourcesStep(sessions: seq<SessionInstance>, factories: map<string, SourceFactory>, plugins: Plugins,
                        decls: seq<(string, Source)>, d: (string, Source))
    ensures LoadSources(sessions, factories, plugins, decls + [d])
         == (var w := LoadSources(sessions, factories, plugins, decls);
             if w.err.Some? then w
             else
               var step := SourceStep(sessions, factories, plugins, d.0, d.1);
               Wiring(w.added + step.added, step.err))
  {
    assert (decls + [d])[..|decls|] == decls;
  }

  /**
   * Declaration `j` of a group, after the earlier ones wired without error: its step adds its
   * instances and either lets the pass go on or ends the whole group with its error.
   */
  lemma LoadSourcesGroupStep(sessions: seq<SessionInstance>, factories: map<string, SourceFactory>, plugins: Plugins,
                             before: seq<(string, Source)>, name: string, confs: seq<Source>, j: nat)
    requires j < |confs|
    requires LoadSources(sessions, factories, plugins, before + Named(name, confs[..j])).err == None
    ensures var w := LoadSources(sessions, factories, plugins, before + Named(name, confs[..j]));
      var step := SourceStep(sessions, factories, plugins, name, confs[j]);
      && (step.err == None ==> LoadSources(sessions, factories, plugins, before + Named(name, confs[..j + 1])) == Wiring(w.added + step.added, None))
      && (step.err.Some? ==> LoadSources(sessions, factories, plugins, before + Named(name, confs)) == Wiring(w.added + step.added, step.err))
  {
    var done := before + Named(name, confs[..j]);
    NamedStep(name, confs, j);
    assert before + Named(name, confs[..j + 1]) == done + [(name, confs[j])];
    LoadSourcesStep(sessions, factories, plugins, done, (name, confs[j]));
    if SourceStep(sessions, factories, plugins, name, confs[j]).err.Some? {
      NamedSplit(before, name, confs, j + 1);
      LoadSourcesErrorStays(sessions, factories, plugins, done + [(name, confs[j])], Named(name, confs)[j + 1..]);
    }
  }

  /** Once the source pass has failed, later declarations change nothing. */
  lemma {:induction false} LoadSourcesErrorStays(sessions: seq<SessionInstance>, factories: map<string, SourceFactory>,
                                                 plugins: Plugins, decls: seq<(string, Source)>, more: seq<(string, Source)>)
    requires LoadSources(sessions, factories, plugins, decls).err.Some?
    ensures LoadSources(sessions, factories, plugins, decls + more) == LoadSources(sessions, factories, plugins, decls)
    decreases |more|
  {
    if |more| == 0 {
      assert decls + more == decls;
    } else {
      var m := more[..|more| - 1];
      assert (decls + more)[..|decls + more| - 1] == decls + m;
      LoadSourcesErrorStays(sessions, factories, plugins, decls, m);
    }
  }

  /** The targets of all scopes: those before scope `i`, its own, those after it. */
  lemma TargetsAround(sessions: seq<SessionInstance>, scopes: seq<string>, i: nat)
    requires i < |scopes|
    ensures Targets(sessions, scopes)
         == Targets(sessions, scopes[..i]) + Pick(sessions, ScopeMatches(sessions, scopes[i])) + Targets(sessions, scopes[i + 1..])
  {
    TargetsStep(sessions, scopes, i);
    assert scopes == scopes[..i + 1] + scopes[i + 1..];
    TargetsAppend(sessions, scopes[..i + 1], scopes[i + 1..]);
  }

  lemma ConcatSplit<T>(a: seq<T>, s: seq<T>, n: nat)
    requires n <= |s|
    ensures a + s == (a + s[..n]) + s[n..]
  {
    assert s == s[..n] + s[n..];
  }

  /** The declarations of a group up to `n`, then the rest of them. */
  lemma NamedSplit<T>(before: seq<(string, T)>, name: string, decls: seq<T>, n: nat)
    requires n <= |decls|
    ensures before + Named(name, decls) == (before + Named(name, decls[..n])) + Named(name, decls)[n..]
  {
    assert Named(name, decls)[..n] == Named(name, decls[..n]);
    ConcatSplit(before, Named(name, decls), n);
  }
}
