/**
 * The older `core` of pkg/core/core.go: it loads credential plugins only, refuses `from`,
 * wraps configure and init failures, and never fills its source list. The plugin registry,
 * a package-level global in Go, is passed in as the `Registry` object.
 */
module PkgCore {
  import opened Wrappers
  import opened Config
  import opened Registry
  import RunnerSpec

  /** The configured plugin object `init(nil)` returned for a declaration. */
  datatype CredentialPlugin = CredentialPlugin(factory: CredentialFactory, tree: Tree)

  /**
   * `loadCredentialPlugin`: the factory lookup, then the refusal of `from`, then configuring
   * and initialising the plugin made without a parent session.
   */
  function CredentialStep(factories: map<string, CredentialFactory>, plugins: Plugins, name: string, conf: Credential)
    : Result<CredentialPlugin, string>
  {
    match Lookup(factories, CredentialNotFound, name)
    case Failure(e) => Failure(e)
    case Success(f) =>
      if conf.from != "" then Failure("not implemented")
      else
        match plugins.configureCredentials(f, None, conf.tree)
        case Some(e) => Failure(Wrap(e, "configure"))
        case None =>
          match plugins.initCredentials(f, None, conf.tree)
          case Some(e) => Failure(Wrap(e, "initializer"))
          case None => Success(CredentialPlugin(f, conf.tree))
  }

  /** `init`: every declaration in turn, stopping at the first error. */
  function InitAll(factories: map<string, CredentialFactory>, plugins: Plugins, decls: seq<(string, Credential)>)
    : Result<seq<CredentialPlugin>, string>
    decreases |decls|
  {
    if |decls| == 0 then Success([])
    else
      match InitAll(factories, plugins, decls[..|decls| - 1])
      case Failure(e) => Failure(e)
      case Success(loaded) => Extend(loaded, factories, plugins, decls[|decls| - 1])
  }

  /** The plugins after one more declaration, or its error. */
  function Extend(loaded: seq<CredentialPlugin>, factories: map<string, CredentialFactory>, plugins: Plugins,
                  d: (string, Credential)): Result<seq<CredentialPlugin>, string>
  {
    match CredentialStep(factories, plugins, d.0, d.1)
    case Failure(e) => Failure(e)
    case Success(p) => Success(loaded + [p])
  }

  lemma InitAllStep(factories: map<string, CredentialFactory>, plugins: Plugins,
                    decls: seq<(string, Credential)>, d: (string, Credential))
    ensures InitAll(factories, plugins, decls + [d])
         == (var r := InitAll(factories, plugins, decls);
             if r.Failure? then r else Extend(r.value, factories, plugins, d))
  {
    assert (decls + [d])[..|decls|] == decls;
  }

  /** Once `init` has failed, later declarations change nothing. */
  lemma {:induction false} InitAllErrorStays(factories: map<string, CredentialFactory>, plugins: Plugins,
                                             decls: seq<(string, Credential)>, more: seq<(string, Credential)>)
    requires InitAll(factories, plugins, decls).Failure?
    ensures InitAll(factories, plugins, decls + more) == InitAll(factories, plugins, decls)
    decreases |more|
  {
    if |more| > 0 {
      var m := more[..|more| - 1];
      assert (decls + more)[..|decls + more| - 1] == decls + m;
      InitAllErrorStays(factories, plugins, decls, m);
    } else {
      assert decls + more == decls;
    }
  }

  /**
   * Declaration `j` of a plugin, after the earlier ones loaded `loaded`: its step either
   * extends `init` by one plugin or is the error of the whole plugin's declarations.
   */
  lemma InitAllGroupStep(factories: map<string, CredentialFactory>, plugins: Plugins,
                         before: seq<(string, Credential)>, name: string, confs: seq<Credential>, j: nat,
                         loaded: seq<CredentialPlugin>)
    requires j < |confs|
    requires InitAll(factories, plugins, before + RunnerSpec.Named(name, confs[..j])) == Success(loaded)
    ensures var step := CredentialStep(factories, plugins, name, confs[j]);
      && (step.Success? ==> InitAll(factories, plugins, before + RunnerSpec.Named(name, confs[..j + 1])) == Success(loaded + [step.value]))
      && (step.Failure? ==> InitAll(factories, plugins, before + RunnerSpec.Named(name, confs)) == Failure(step.error))
  {
    var done := before + RunnerSpec.Named(name, confs[..j]);
    RunnerSpec.NamedStep(name, confs, j);
    assert before + RunnerSpec.Named(name, confs[..j + 1]) == done + [(name, confs[j])];
    InitAllStep(factories, plugins, done, (name, confs[j]));
    if CredentialStep(factories, plugins, name, confs[j]).Failure? {
      RunnerSpec.NamedSplit(before, name, confs, j + 1);
      InitAllErrorStays(factories, plugins, done + [(name, confs[j])], RunnerSpec.Named(name, confs)[j + 1..]);
    }
  }

  /** The `core` struct: loaded credential plugins, and sources, which nothing appends to. */
  class Core {
    var credentials: seq<CredentialPlugin>
    var sources: seq<RunnerSpec.SourcePlugin>

    /** `var c core`: both lists empty. */
    constructor ()
      ensures credentials == [] && sources == []
    {
      credentials := [];
      sources := [];
    }

    /** `loadCredentialPlugin`: appends the plugin `CredentialStep` describes, or returns its error. */
    method LoadCredentialPlugin(reg: Registry, plugins: Plugins, name: string, conf: Credential)
      returns (err: Option<string>)
      modifies this
      ensures var step := CredentialStep(reg.credentials, plugins, name, conf);
        if step.Success? then err == None && credentials == old(credentials) + [step.value]
        else err == Some(step.error) && credentials == old(credentials)
      ensures sources == old(sources)
    {
      var init := reg.GetCredentials(name);
      if init.Failure? {
        return Some(init.error);
      }
      if conf.from != "" {
        return Some("not implemented");
      }
      var f := init.value;
      var configured := plugins.configureCredentials(f, None, conf.tree);
      if configured.Some? {
        return Some(Wrap(configured.value, "configure"));
      }
      var initialised := plugins.initCredentials(f, None, conf.tree);
      if initialised.Some? {
        return Some(Wrap(initialised.value, "initializer"));
      }
      credentials := credentials + [CredentialPlugin(f, conf.tree)];
      err := None;
    }

    /** The `j`th declaration of a plugin: loading either goes on or has ended with an error. */
    method LoadAt(reg: Registry, plugins: Plugins, name: string, confs: seq<Credential>, j: nat,
                  ghost before: seq<(string, Credential)>) returns (err: Option<string>)
      modifies this
      requires j < |confs|
      requires InitAll(reg.credentials, plugins, before + RunnerSpec.Named(name, confs[..j])) == Success(credentials)
      ensures sources == old(sources)
      ensures err == None ==> InitAll(reg.credentials, plugins, before + RunnerSpec.Named(name, confs[..j + 1])) == Success(credentials)
      ensures err.Some? ==> var loaded := InitAll(reg.credentials, plugins, before + RunnerSpec.Named(name, confs));
        loaded.Failure? && err == Some(loaded.error)
    {
      InitAllGroupStep(reg.credentials, plugins, before, name, confs, j, credentials);
      err := LoadCredentialPlugin(reg, plugins, name, confs[j]);
    }

    /** The declarations of one plugin, in turn, stopping at the first error. */
    method LoadGroup(reg: Registry, plugins: Plugins, name: string, confs: seq<Credential>,
                     ghost before: seq<(string, Credential)>) returns (err: Option<string>)
      modifies this
      requires InitAll(reg.credentials, plugins, before) == Success(credentials)
      ensures sources == old(sources)
      ensures var loaded := InitAll(reg.credentials, plugins, before + RunnerSpec.Named(name, confs));
        if loaded.Success? then err == None && credentials == loaded.value else err == Some(loaded.error)
    {
      assert before + RunnerSpec.Named(name, confs[..0]) == before;
      for j := 0 to |confs|
        invariant sources == old(sources)
        invariant InitAll(reg.credentials, plugins, before + RunnerSpec.Named(name, confs[..j])) == Success(credentials)
      {
        err := LoadAt(reg, plugins, name, confs, j, before);
        if err.Some? {
          return;
        }
      }
      assert confs[..|confs|] == confs;
      err := None;
    }

    /**
     * `init`: every credential declaration, visiting the plugin names in `order`; the first
     * error stops it. Sources are left untouched.
     */
    method Init(reg: Registry, plugins: Plugins, conf: Config, order: seq<string>) returns (err: Option<string>)
      modifies this
      requires credentials == []
      requires Enumerates(order, conf.credentials)
      ensures sources == old(sources)
      ensures var loaded := InitAll(reg.credentials, plugins, RunnerSpec.Declarations(conf.credentials, order));
        if loaded.Success? then err == None && credentials == loaded.value else err == Some(loaded.error)
    {
      for i := 0 to |order|
        invariant sources == old(sources)
        invariant InitAll(reg.credentials, plugins, RunnerSpec.Declarations(conf.credentials, order[..i])) == Success(credentials)
      {
        ghost var before := RunnerSpec.Declarations(conf.credentials, order[..i]);
        err := LoadGroup(reg, plugins, order[i], conf.credentials[order[i]], before);
        RunnerSpec.DeclarationsStep(conf.credentials, order, i);
        if err.Some? {
          RunnerSpec.DeclarationsSplit(conf.credentials, order, i + 1);
          InitAllErrorStays(reg.credentials, plugins, RunnerSpec.Declarations(conf.credentials, order[..i + 1]),
                            RunnerSpec.Declarations(conf.credentials, order[i + 1..]));
          return;
        }
      }
      assert order[..|order|] == order;
      err := None;
    }
  }

  /**
   * `Run` up to its source pipeline: an `init` error comes back wrapped as "init core". The
   * core it would then run has no sources.
   */
  method Run(reg: Registry, plugins: Plugins, conf: Config, order: seq<string>) returns (err: Option<string>)
    requires Enumerates(order, conf.credentials)
    ensures var loaded := InitAll(reg.credentials, plugins, RunnerSpec.Declarations(conf.credentials, order));
      if loaded.Failure? then err == Some(Wrap(loaded.error, "init core")) else err == None
  {
    var c := new Core();
    var e := c.Init(reg, plugins, conf, order);
    if e.Some? {
      return Some(Wrap(e.value, "init core"));
    }
    assert c.sources == [];
    err := None;
  }

  /**
   * The outcome of one declaration, in full: an unknown plugin is reported before `from` is
   * looked at, `from` is refused before configuring, and each hook's failure is wrapped.
   */
  lemma CredentialStepOutcome(factories: map<string, CredentialFactory>, plugins: Plugins, name: string, conf: Credential)
    ensures name !in factories ==>
      CredentialStep(factories, plugins, name, conf) == Failure("credential plugin not found: " + name)
    ensures name in factories && conf.from != "" ==>
      CredentialStep(factories, plugins, name, conf) == Failure("not implemented")
    ensures name in factories && conf.from == "" ==>
      var f := factories[name];
      CredentialStep(factories, plugins, name, conf)
      == if plugins.configureCredentials(f, None, conf.tree).Some? then
           Failure("configure: " + plugins.configureCredentials(f, None, conf.tree).value)
         else if plugins.initCredentials(f, None, conf.tree).Some? then
           Failure("initializer: " + plugins.initCredentials(f, None, conf.tree).value)
         else Success(CredentialPlugin(f, conf.tree))
  {
    if name in factories && conf.from == "" {
      var f := factories[name];
      var configured := plugins.configureCredentials(f, None, conf.tree);
      var initialised := plugins.initCredentials(f, None, conf.tree);
      if configured.Some? {
        assert Wrap(configured.value, "configure") == "configure: " + configured.value;
      } else if initialised.Some? {
        assert Wrap(initialised.value, "initializer") == "initializer: " + initialised.value;
      }
    }
  }

  /**
   * A successful `init` holds one plugin per declaration, in order, each that declaration's
   * configured plugin; a failed one reports the error of its first failing declaration.
   */
  lemma InitAllOutcome(factories: map<string, CredentialFactory>, plugins: Plugins,
                         decls: seq<(string, Credential)>)
    ensures var r := InitAll(factories, plugins, decls);
      r.Success? ==>
        |r.value| == |decls|
        && forall i :: 0 <= i < |decls| ==> CredentialStep(factories, plugins, decls[i].0, decls[i].1) == Success(r.value[i])
    ensures var r := InitAll(factories, plugins, decls);
      r.Failure? ==>
        exists k :: 0 <= k < |decls|
          && CredentialStep(factories, plugins, decls[k].0, decls[k].1) == Failure(r.error)
          && forall i :: 0 <= i < k ==> CredentialStep(factories, plugins, decls[i].0, decls[i].1).Success?
  {
    InitAllDone(factories, plugins, decls);
    InitAllStops(factories, plugins, decls);
  }

  /** The half of `InitAllOutcome` about an `init` that loads everything. */
  lemma {:induction false} InitAllDone(factories: map<string, CredentialFactory>, plugins: Plugins,
                                       decls: seq<(string, Credential)>)
    ensures var r := InitAll(factories, plugins, decls);
      r.Success? ==>
        |r.value| == |decls|
        && forall i :: 0 <= i < |decls| ==> CredentialStep(factories, plugins, decls[i].0, decls[i].1) == Success(r.value[i])
    decreases |decls|
  {
    if |decls| > 0 {
      var n := |decls| - 1;
      var earlier := decls[..n];
      InitAllDone(factories, plugins, earlier);
      assert forall i :: 0 <= i < n ==> decls[i] == earlier[i];
    }
  }

  /** The half of `InitAllOutcome` about an `init` that stops. */
  lemma {:induction false} InitAllStops(factories: map<string, CredentialFactory>, plugins: Plugins,
                                        decls: seq<(string, Credential)>)
    ensures var r := InitAll(factories, plugins, decls);
      r.Failure? ==>
        exists k :: 0 <= k < |decls|
          && CredentialStep(factories, plugins, decls[k].0, decls[k].1) == Failure(r.error)
          && forall i :: 0 <= i < k ==> CredentialStep(factories, plugins, decls[i].0, decls[i].1).Success?
    decreases |decls|
  {
    if |decls| > 0 {
      var n := |decls| - 1;
      var earlier := decls[..n];
      var r := InitAll(factories, plugins, earlier);
      if r.Failure? {
        assert InitAll(factories, plugins, decls) == r;
        InitAllStops(factories, plugins, earlier);
        var k :| 0 <= k < n
          && CredentialStep(factories, plugins, earlier[k].0, earlier[k].1) == Failure(r.error)
          && forall i :: 0 <= i < k ==> CredentialStep(factories, plugins, earlier[i].0, earlier[i].1).Success?;
        assert forall i :: 0 <= i <= k ==> decls[i] == earlier[i];
      } else {
        StopsAtLast(factories, plugins, decls);
      }
    }
  }
  /** When every earlier declaration loads, a stop is the last declaration's own. */
  lemma StopsAtLast(factories: map<string, CredentialFactory>, plugins: Plugins, decls: seq<(string, Credential)>)
    requires |decls| > 0 && InitAll(factories, plugins, decls[..|decls| - 1]).Success?
    ensures var r, n := InitAll(factories, plugins, decls), |decls| - 1;
      r.Failure? ==>
        && CredentialStep(factories, plugins, decls[n].0, decls[n].1) == Failure(r.error)
        && forall i :: 0 <= i < n ==> CredentialStep(factories, plugins, decls[i].0, decls[i].1).Success?
  {
    var n := |decls| - 1;
    var earlier := decls[..n];
    InitAllDone(factories, plugins, earlier);
    assert forall i :: 0 <= i < n ==> decls[i] == earlier[i];
  }


  /** No declaration with `from` can load: such a configuration always fails `init`. */
  lemma FromAlwaysFails(factories: map<string, CredentialFactory>, plugins: Plugins, decls: seq<(string, Credential)>, k: nat)
    requires k < |decls| && decls[k].1.from != ""
    ensures InitAll(factories, plugins, decls).Failure?
  {
    InitAllOutcome(factories, plugins, decls);
    CredentialStepOutcome(factories, plugins, decls[k].0, decls[k].1);
  }
}
