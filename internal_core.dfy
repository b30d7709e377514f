/**
 * The `core` of internal/core/core.go, written against the older internal registry. Its
 * registry lookup never fails, so an unknown plugin name is not reported: with an empty
 * `from` the nil factory is called, which panics. A panic is an outcome of its own here.
 */
module InternalCore {
  import opened Wrappers
  import opened Config
  import opened Registry
  import InternalRegistry
  import RunnerSpec
  import PkgCore

  /** What loading one declaration ends in. */
  datatype Step = Loaded(plugin: PkgCore.CredentialPlugin) | Failed(err: string) | Panicked

  /** What `init` ends in. */
  datatype Outcome = Done(plugins: seq<PkgCore.CredentialPlugin>) | Stopped(err: string) | Crashed

  /**
   * `loadCredentialPlugin`: `from` is refused first; then the factory the registry returned
   * is called, which panics when it is nil; then the plugin is configured and initialised.
   */
  function CredentialStep(factories: map<string, CredentialFactory>, plugins: Plugins, name: string, conf: Credential)
    : Step
  {
    if conf.from != "" then Failed("not implemented")
    else
      match InternalRegistry.Find(factories, name)
      case None => Panicked
      case Some(f) =>
        match plugins.configureCredentials(f, None, conf.tree)
        case Some(e) => Failed(Wrap(e, "configure"))
        case None =>
          match plugins.initCredentials(f, None, conf.tree)
          case Some(e) => Failed(Wrap(e, "initializer"))
          case None => Loaded(PkgCore.CredentialPlugin(f, conf.tree))
  }

  /** `init`: every declaration in turn, up to the first error or panic. */
  function InitAll(factories: map<string, CredentialFactory>, plugins: Plugins, decls: seq<(string, Credential)>): Outcome
    decreases |decls|
  {
    if |decls| == 0 then Done([])
    else
      match InitAll(factories, plugins, decls[..|decls| - 1])
      case Done(loaded) => Extend(loaded, factories, plugins, decls[|decls| - 1])
      case other => other
  }

  /** The plugins after one more declaration, or how it ended. */
  function Extend(loaded: seq<PkgCore.CredentialPlugin>, factories: map<string, CredentialFactory>, plugins: Plugins,
                  d: (string, Credential)): Outcome
  {
    match CredentialStep(factories, plugins, d.0, d.1)
    case Loaded(p) => Done(loaded + [p])
    case Failed(e) => Stopped(e)
    case Panicked => Crashed
  }

  lemma InitAllStep(factories: map<string, CredentialFactory>, plugins: Plugins,
                    decls: seq<(string, Credential)>, d: (string, Credential))
    ensures InitAll(factories, plugins, decls + [d])
         == (var r := InitAll(factories, plugins, decls);
             if r.Done? then Extend(r.plugins, factories, plugins, d) else r)
  {
    assert (decls + [d])[..|decls|] == decls;
  }

  /**
   * Declaration `j` of a plugin, after the earlier ones loaded `loaded`: its step either
   * extends `init` by one plugin or is how the whole plugin's declarations end.
   */
  lemma InitAllGroupStep(factories: map<string, CredentialFactory>, plugins: Plugins,
                         before: seq<(string, Credential)>, name: string, confs: seq<Credential>, j: nat,
                         loaded: seq<PkgCore.CredentialPlugin>)
    requires j < |confs|
    requires InitAll(factories, plugins, before + RunnerSpec.Named(name, confs[..j])) == Done(loaded)
    ensures var step := CredentialStep(factories, plugins, name, confs[j]);
      && (step.Loaded? ==> InitAll(factories, plugins, before + RunnerSpec.Named(name, confs[..j + 1])) == Done(loaded + [step.plugin]))
      && (step.Failed? ==> InitAll(factories, plugins, before + RunnerSpec.Named(name, confs)) == Stopped(step.err))
      && (step.Panicked? ==> InitAll(factories, plugins, before + RunnerSpec.Named(name, confs)) == Crashed)
  {
    var done := before + RunnerSpec.Named(name, confs[..j]);
    RunnerSpec.NamedStep(name, confs, j);
    assert before + RunnerSpec.Named(name, confs[..j + 1]) == done + [(name, confs[j])];
    InitAllStep(factories, plugins, done, (name, confs[j]));
    if !CredentialStep(factories, plugins, name, confs[j]).Loaded? {
      RunnerSpec.NamedSplit(before, name, confs, j + 1);
      InitAllEndStays(factories, plugins, done + [(name, confs[j])], RunnerSpec.Named(name, confs)[j + 1..]);
    }
  }

  /** Once `init` has stopped or crashed, later declarations change nothing. */
  lemma {:induction false} InitAllEndStays(factories: map<string, CredentialFactory>, plugins: Plugins,
                                           decls: seq<(string, Credential)>, more: seq<(string, Credential)>)
    requires !InitAll(factories, plugins, decls).Done?
    ensures InitAll(factories, plugins, decls + more) == InitAll(factories, plugins, decls)
    decreases |more|
  {
    if |more| > 0 {
      var m := more[..|more| - 1];
      assert (decls + more)[..|decls + more| - 1] == decls + m;
      InitAllEndStays(factories, plugins, decls, m);
    } else {
      assert decls + more == decls;
    }
  }

  class Core {
    var credentials: seq<PkgCore.CredentialPlugin>
    var sources: seq<RunnerSpec.SourcePlugin>

    /** `var c core`: both lists empty. */
    constructor ()
      ensures credentials == [] && sources == []
    {
      credentials := [];
      sources := [];
    }

    /**
     * `loadCredentialPlugin`: appends the plugin `CredentialStep` describes, or returns its
     * error, or panics (`panicked`), appending nothing. The lookup's error is always nil, so
     * its check is not modelled as a branch.
     */
    method LoadCredentialPlugin(reg: InternalRegistry.Registry, plugins: Plugins, name: string, conf: Credential)
      returns (err: Option<string>, panicked: bool)
      modifies this
      ensures match CredentialStep(reg.credentials, plugins, name, conf)
        case Loaded(p) => err == None && !panicked && credentials == old(credentials) + [p]
        case Failed(e) => err == Some(e) && !panicked && credentials == old(credentials)
        case Panicked => panicked && credentials == old(credentials)
      ensures sources == old(sources)
    {
      var (init, _) := reg.GetCredentials(name);
      if conf.from != "" {
        return Some("not implemented"), false;
      }
      if init.None? {
        return None, true;
      }
      var f := init.value;
      var configured := plugins.configureCredentials(f, None, conf.tree);
      if configured.Some? {
        return Some(Wrap(configured.value, "configure")), false;
      }
      var initialised := plugins.initCredentials(f, None, conf.tree);
      if initialised.Some? {
        return Some(Wrap(initialised.value, "initializer")), false;
      }
      credentials := credentials + [PkgCore.CredentialPlugin(f, conf.tree)];
      err, panicked := None, false;
    }

    /** The `j`th declaration of a plugin: loading either goes on or has ended. */
    method LoadAt(reg: InternalRegistry.Registry, plugins: Plugins, name: string, confs: seq<Credential>, j: nat,
                  ghost before: seq<(string, Credential)>) returns (err: Option<string>, panicked: bool)
      modifies this
      requires j < |confs|
      requires InitAll(reg.credentials, plugins, before + RunnerSpec.Named(name, confs[..j])) == Done(credentials)
      ensures sources == old(sources)
      ensures err == None && !panicked ==>
        InitAll(reg.credentials, plugins, before + RunnerSpec.Named(name, confs[..j + 1])) == Done(credentials)
      ensures err.Some? || panicked ==> var r := InitAll(reg.credentials, plugins, before + RunnerSpec.Named(name, confs));
        (panicked ==> r == Crashed) && (!panicked ==> r == Stopped(err.value))
    {
      InitAllGroupStep(reg.credentials, plugins, before, name, confs, j, credentials);
      err, panicked := LoadCredentialPlugin(reg, plugins, name, confs[j]);
    }

    /** The declarations of one plugin, in turn, up to the first error or panic. */
    method LoadGroup(reg: InternalRegistry.Registry, plugins: Plugins, name: string, confs: seq<Credential>,
                     ghost before: seq<(string, Credential)>) returns (err: Option<string>, panicked: bool)
      modifies this
      requires InitAll(reg.credentials, plugins, before) == Done(credentials)
      ensures sources == old(sources)
      ensures match InitAll(reg.credentials, plugins, before + RunnerSpec.Named(name, confs))
        case Done(loaded) => err == None && !panicked && credentials == loaded
        case Stopped(e) => err == Some(e) && !panicked
        case Crashed => panicked
    {
      assert before + RunnerSpec.Named(name, confs[..0]) == before;
      for j := 0 to |confs|
        invariant sources == old(sources)
        invariant InitAll(reg.credentials, plugins, before + RunnerSpec.Named(name, confs[..j])) == Done(credentials)
      {
        err, panicked := LoadAt(reg, plugins, name, confs, j, before);
        if err.Some? || panicked {
          return;
        }
      }
      assert confs[..|confs|] == confs;
      err, panicked := None, false;
    }

    /** `init`: every credential declaration, visiting the plugin names in `order`. */
    method Init(reg: InternalRegistry.Registry, plugins: Plugins, conf: Config, order: seq<string>)
      returns (err: Option<string>, panicked: bool)
      modifies this
      requires credentials == []
      requires Enumerates(order, conf.credentials)
      ensures sources == old(sources)
      ensures match InitAll(reg.credentials, plugins, RunnerSpec.Declarations(conf.credentials, order))
        case Done(loaded) => err == None && !panicked && credentials == loaded
        case Stopped(e) => err == Some(e) && !panicked
        case Crashed => panicked
    {
      for i := 0 to |order|
        invariant sources == old(sources)
        invariant InitAll(reg.credentials, plugins, RunnerSpec.Declarations(conf.credentials, order[..i])) == Done(credentials)
      {
        ghost var before := RunnerSpec.Declarations(conf.credentials, order[..i]);
        err, panicked := LoadGroup(reg, plugins, order[i], conf.credentials[order[i]], before);
        RunnerSpec.DeclarationsStep(conf.credentials, order, i);
        if err.Some? || panicked {
          RunnerSpec.DeclarationsSplit(conf.credentials, order, i + 1);
          InitAllEndStays(reg.credentials, plugins, RunnerSpec.Declarations(conf.credentials, order[..i + 1]),
                          RunnerSpec.Declarations(conf.credentials, order[i + 1..]));
          return;
        }
      }
      assert order[..|order|] == order;
      err, panicked := None, false;
    }
  }

  /** `Run` up to its source pipeline: an `init` error comes back wrapped as "init core". */
  method Run(reg: InternalRegistry.Registry, plugins: Plugins, conf: Config, order: seq<string>)
    returns (err: Option<string>, panicked: bool)
    requires Enumerates(order, conf.credentials)
    ensures match InitAll(reg.credentials, plugins, RunnerSpec.Declarations(conf.credentials, order))
      case Done(_) => err == None && !panicked
      case Stopped(e) => err == Some(Wrap(e, "init core")) && !panicked
      case Crashed => panicked
  {
    var c := new Core();
    var e, p := c.Init(reg, plugins, conf, order);
    if p {
      return None, true;
    }
    if e.Some? {
      return Some(Wrap(e.value, "init core")), false;
    }
    err, panicked := None, false;
  }

  /**
   * No unknown plugin is reported: an unknown name with `from` fails with "not implemented",
   * and without it calls the nil factory.
   */
  lemma UnknownPluginUnreported(factories: map<string, CredentialFactory>, plugins: Plugins, name: string, conf: Credential)
    requires name !in factories
    ensures CredentialStep(factories, plugins, name, conf) == if conf.from != "" then Failed("not implemented") else Panicked
  {
    assert InternalRegistry.Find(factories, name) == None;
  }

  /**
   * A known plugin behaves as in pkg/core/core.go: the same refusal of `from`, the same
   * wrapped errors, the same plugin appended.
   */
  lemma KnownPluginAgrees(factories: map<string, CredentialFactory>, plugins: Plugins, name: string, conf: Credential)
    requires name in factories
    ensures match PkgCore.CredentialStep(factories, plugins, name, conf)
      case Success(p) => CredentialStep(factories, plugins, name, conf) == Loaded(p)
      case Failure(e) => CredentialStep(factories, plugins, name, conf) == Failed(e)
  {
    assert InternalRegistry.Find(factories, name) == Some(factories[name]);
    assert Lookup(factories, CredentialNotFound, name) == Success(factories[name]);
  }

  /**
   * `init` ends as its first declaration that does not load: in a crash if that one
   * panicked, with its error if it failed; otherwise every declaration loads, in order.
   */
  lemma InitAllOutcome(factories: map<string, CredentialFactory>, plugins: Plugins,
                         decls: seq<(string, Credential)>)
    ensures var r := InitAll(factories, plugins, decls);
      r.Done? ==>
        |r.plugins| == |decls|
        && forall i :: 0 <= i < |decls| ==> CredentialStep(factories, plugins, decls[i].0, decls[i].1) == Loaded(r.plugins[i])
    ensures var r := InitAll(factories, plugins, decls);
      !r.Done? ==>
        exists k :: 0 <= k < |decls|
          && (forall i :: 0 <= i < k ==> CredentialStep(factories, plugins, decls[i].0, decls[i].1).Loaded?)
          && CredentialStep(factories, plugins, decls[k].0, decls[k].1)
             == (if r.Crashed? then Panicked else Failed(r.err))
  {
    InitAllDone(factories, plugins, decls);
    InitAllStops(factories, plugins, decls);
  }

  /** The half of `InitAllOutcome` about an `init` that loads everything. */
  lemma {:induction false} InitAllDone(factories: map<string, CredentialFactory>, plugins: Plugins,
                                       decls: seq<(string, Credential)>)
    ensures var r := InitAll(factories, plugins, decls);
      r.Done? ==>
        |r.plugins| == |decls|
        && forall i :: 0 <= i < |decls| ==> CredentialStep(factories, plugins, decls[i].0, decls[i].1) == Loaded(r.plugins[i])
    decreases |decls|
  {
    if |decls| > 0 {
      var n := |decls| - 1;
      var earlier := decls[..n];
      InitAllDone(factories, plugins, earlier);
      assert forall i :: 0 <= i < n ==> decls[i] == earlier[i];
    }
  }

  /** The half of `InitAllOutcome` about an `init` that stops. */
  lemma {:induction false} InitAllStops(factories: map<string, CredentialFactory>, plugins: Plugins,
                                        decls: seq<(string, Credential)>)
    ensures var r := InitAll(factories, plugins, decls);
      !r.Done? ==>
        exists k :: 0 <= k < |decls|
          && (forall i :: 0 <= i < k ==> CredentialStep(factories, plugins, decls[i].0, decls[i].1).Loaded?)
          && CredentialStep(factories, plugins, decls[k].0, decls[k].1)
             == (if r.Crashed? then Panicked else Failed(r.err))
    decreases |decls|
  {
    if |decls| > 0 {
      var n := |decls| - 1;
      var earlier := decls[..n];
      var r := InitAll(factories, plugins, earlier);
      if !r.Done? {
        assert InitAll(factories, plugins, decls) == r;
        InitAllStops(factories, plugins, earlier);
        var k :| 0 <= k < n
          && (forall i :: 0 <= i < k ==> CredentialStep(factories, plugins, earlier[i].0, earlier[i].1).Loaded?)
          && CredentialStep(factories, plugins, earlier[k].0, earlier[k].1)
             == (if r.Crashed? then Panicked else Failed(r.err));
        assert forall i :: 0 <= i <= k ==> decls[i] == earlier[i];
      } else {
        StopsAtLast(factories, plugins, decls);
      }
    }
  }
  /** When every earlier declaration loads, a stop is the last declaration's own. */
  lemma StopsAtLast(factories: map<string, CredentialFactory>, plugins: Plugins, decls: seq<(string, Credential)>)
    requires |decls| > 0 && InitAll(factories, plugins, decls[..|decls| - 1]).Done?
    ensures var r, n := InitAll(factories, plugins, decls), |decls| - 1;
      !r.Done? ==>
        && CredentialStep(factories, plugins, decls[n].0, decls[n].1) == (if r.Crashed? then Panicked else Failed(r.err))
        && forall i :: 0 <= i < n ==> CredentialStep(factories, plugins, decls[i].0, decls[i].1).Loaded?
  {
    var n := |decls| - 1;
    var earlier := decls[..n];
    InitAllDone(factories, plugins, earlier);
    assert forall i :: 0 <= i < n ==> decls[i] == earlier[i];
  }

}
