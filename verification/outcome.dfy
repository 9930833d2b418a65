/** When a bootstrap succeeds and why it fails. It succeeds exactly when
    every declared module file exists and, unless automatic migrations are
    on, no discovered migration configuration has a pending migration. A
    failure names a missing module file or the plugin whose migrations are
    pending; includes are checked before mains; and the first failing
    plugin decides the outcome, so nothing after it is processed. */
module Outcome {
  import opened Results
  import opened Model
  import opened Seqs
  import opened Paths
  import opened Discovery
  import opened ServerProgram
  import opened Reference
  import opened Steps

  /** What a state must agree with the environment on for the checks to
      give the same answers: the module files present, and with automatic
      migrations off, an untouched schema. */
  ghost predicate Consistent(env: Environment, st: State) {
    && (forall p :: IsModulePath(p) ==> (p in st.files <==> p in env.files))
    && (!env.automaticMigrations ==> st.schema == {})
  }

  lemma ExtendsConsistent(env: Environment, st: State, st': State)
    requires Consistent(env, st) && Extends(env, st, st')
    ensures Consistent(env, st')
  {
    forall p | IsModulePath(p)
      ensures p in st'.files <==> p in env.files
    {
      ModuleAndConfigPathsDisjoint(p);
    }
  }

  /** Some candidate of `plugin` had a migration pending at start. */
  ghost predicate SomePending(env: Environment, plugin: PluginName, cs: seq<Candidate>) {
    exists c :: c in cs && c.plugin == plugin && PendingAtStart(env, c.t.name) != []
  }

  /** The first of `paths` missing from `files`, if any. */
  function FirstMissing(paths: seq<Path>, files: set<Path>): (r: Option<Path>)
    ensures r.Some? <==> !AllPresent(paths, files)
    ensures r.Some? ==> r.value in paths && r.value !in files
    ensures r.Some? ==> exists i :: 0 <= i < |paths| && paths[i] == r.value && AllPresent(paths[..i], files)
    decreases |paths|
  {
    if paths == [] then None
    else if paths[0] !in files then
      assert paths[..0] == [];
      Some(paths[0])
    else
      var r := FirstMissing(paths[1..], files);
      assert r.Some? ==> exists i :: 0 <= i < |paths| && paths[i] == r.value && AllPresent(paths[..i], files) by {
        if r.Some? {
          var k :| 0 <= k < |paths[1..]| && paths[1..][k] == r.value && AllPresent(paths[1..][..k], files);
          assert paths[..k + 1] == [paths[0]] + paths[1..][..k];
          assert paths[k + 1] == r.value;
        }
      }
      r
  }

  /** With the schema untouched, what is pending is what was pending at
      start. */
  lemma PendingWithEmptySchema(env: Environment, name: string)
    ensures PendingMigrations(env, {}, name) == PendingAtStart(env, name)
  {
    FilterKeepsAll(NotApplied({}, name), PendingAtStart(env, name));
  }

  lemma {:induction false} RunMigrationsOutcome(env: Environment, plugin: PluginName, ts: seq<TypeDescriptor>, st: State)
    requires Consistent(env, st)
    ensures var r := RunMigrations(env, plugin, ts, st);
      && (r.Success? <==> env.automaticMigrations || NothingPendingAtStart(env, Tag(plugin, ts)))
      && (r.Failure? ==> r.error == MigrationsPending(plugin))
    decreases |ts|
  {
    if ts != [] {
      var g := MigrationGate(env, plugin, ts[0], st);
      if !env.automaticMigrations {
        PendingWithEmptySchema(env, ts[0].name);
      }
      assert Tag(plugin, ts) == [Candidate(plugin, ts[0])] + Tag(plugin, ts[1..]);
      if g.Success? {
        ExtendsConsistent(env, st, g.value);
        RunMigrationsOutcome(env, plugin, ts[1..], g.value);
      }
    }
  }

  lemma LoadMainOutcome(env: Environment, plugin: PluginName, id: string, st: State)
    requires Consistent(env, st)
    ensures var r := LoadMain(env, plugin, id, st);
      var ms := Tag(plugin, MigrationTypes(LoadedTypes(env, MainPath(plugin, id))));
      && (r.Success? <==> MainPath(plugin, id) in env.files && (env.automaticMigrations || NothingPendingAtStart(env, ms)))
      && (r.Failure? ==> r.error == FileNotFound(MainPath(plugin, id)) || r.error == MigrationsPending(plugin))
      && (r.Failure? && r.error.FileNotFound? ==> MainPath(plugin, id) !in env.files)
      && (MainPath(plugin, id) !in env.files ==> r == Failure(FileNotFound(MainPath(plugin, id))))
      && (r.Failure? && r.error.MigrationsPending? ==> !env.automaticMigrations && !NothingPendingAtStart(env, ms))
  {
    var path := MainPath(plugin, id);
    LayoutRoots(plugin, id);
    if path in st.files {
      var st1 := AfterLoad(plugin, id, st);
      RunMigrationsOutcome(env, plugin, MigrationTypes(LoadedTypes(env, path)), st1);
    }
  }

  /** Every candidate of a main module's list belongs to that plugin. */
  lemma {:induction false} MainsMigrationsOwner(env: Environment, plugin: PluginName, ids: seq<string>)
    ensures forall c :: c in MainsMigrations(env, plugin, ids) ==> c.plugin == plugin
    decreases |ids|
  {
    if ids != [] {
      MainsMigrationsOwner(env, plugin, ids[1..]);
    }
  }

  lemma {:induction false} LoadMainsOutcome(env: Environment, plugin: PluginName, ids: seq<string>, st: State)
    requires Consistent(env, st)
    ensures var r := LoadMains(env, plugin, ids, st);
      var ms := MainsMigrations(env, plugin, ids);
      && (r.Success? <==> AllPresent(MainPaths(plugin, ids), env.files) && (env.automaticMigrations || NothingPendingAtStart(env, ms)))
      && (r.Failure? && r.error.FileNotFound? ==> r.error.path in MainPaths(plugin, ids) && r.error.path !in env.files)
      && (r.Failure? && r.error.MigrationsPending? ==> r.error.plugin == plugin && !env.automaticMigrations && !NothingPendingAtStart(env, ms))
    decreases |ids|
  {
    if ids != [] {
      var r1 := LoadMain(env, plugin, ids[0], st);
      LoadMainOutcome(env, plugin, ids[0], st);
      var head := Tag(plugin, MigrationTypes(LoadedTypes(env, MainPath(plugin, ids[0]))));
      assert MainsMigrations(env, plugin, ids) == head + MainsMigrations(env, plugin, ids[1..]);
      assert MainPaths(plugin, ids) == [MainPath(plugin, ids[0])] + MainPaths(plugin, ids[1..]);
      if r1.Success? {
        ExtendsConsistent(env, st, r1.value);
        LoadMainsOutcome(env, plugin, ids[1..], r1.value);
      }
    }
  }

  /** Includes fail exactly on the first missing include file. */
  lemma {:induction false} LoadIncludesOutcome(env: Environment, plugin: PluginName, ids: seq<string>, st: State)
    requires Consistent(env, st)
    ensures var r := LoadIncludes(plugin, ids, st);
      var missing := FirstMissing(IncludePaths(plugin, ids), env.files);
      && (r.Failure? <==> missing.Some?)
      && (r.Failure? ==> r.error == FileNotFound(missing.value))
    decreases |ids|
  {
    if ids != [] {
      LayoutRoots(plugin, ids[0]);
      var path := IncludePath(plugin, ids[0]);
      assert IncludePaths(plugin, ids) == [path] + IncludePaths(plugin, ids[1..]);
      assert IncludePaths(plugin, ids)[1..] == IncludePaths(plugin, ids[1..]);
      if path in st.files {
        LoadIncludesOutcome(env, plugin, ids[1..], st.(trace := st.trace + [LoadModule(path)]));
      }
    }
  }

  lemma RunPluginOutcome(env: Environment, d: PluginDefinition, st: State)
    requires Consistent(env, st)
    ensures var r := RunPlugin(env, d, st);
      var ms := MainsMigrations(env, d.name, Mains(d));
      && (r.Success? <==> AllPresent(PluginModulePaths(d), env.files) && (env.automaticMigrations || NothingPendingAtStart(env, ms)))
      && (r.Failure? && r.error.FileNotFound? ==> r.error.path in PluginModulePaths(d) && r.error.path !in env.files)
      && (r.Failure? && r.error.MigrationsPending? ==> !env.automaticMigrations && SomePending(env, r.error.plugin, ms))
  {
    var r1 := LoadIncludes(d.name, Includes(d), st);
    LoadIncludesOutcome(env, d.name, Includes(d), st);
    MainsMigrationsOwner(env, d.name, Mains(d));
    if r1.Success? {
      ExtendsConsistent(env, st, r1.value);
      LoadMainsOutcome(env, d.name, Mains(d), r1.value);
    }
  }

  lemma {:induction false} RunPluginsOutcome(env: Environment, defs: seq<PluginDefinition>, st: State)
    requires Consistent(env, st)
    ensures var r := RunPlugins(env, defs, st);
      var ms := DefsMigrations(env, defs);
      && (r.Success? <==> AllPresent(ModulePaths(defs), env.files) && (env.automaticMigrations || NothingPendingAtStart(env, ms)))
      && (r.Failure? && r.error.FileNotFound? ==> r.error.path in ModulePaths(defs) && r.error.path !in env.files)
      && (r.Failure? && r.error.MigrationsPending? ==> !env.automaticMigrations && SomePending(env, r.error.plugin, ms))
    decreases |defs|
  {
    if defs != [] {
      var r1 := RunPlugin(env, defs[0], st);
      RunPluginOutcome(env, defs[0], st);
      var head := MainsMigrations(env, defs[0].name, Mains(defs[0]));
      assert DefsMigrations(env, defs) == head + DefsMigrations(env, defs[1..]);
      assert ModulePaths(defs) == PluginModulePaths(defs[0]) + ModulePaths(defs[1..]);
      if r1.Success? {
        ExtendsConsistent(env, st, r1.value);
        RunPluginsOutcome(env, defs[1..], r1.value);
      }
    }
  }

  /** A bootstrap succeeds exactly when every module file the definitions
      name exists and, with automatic migrations off, nothing was pending
      for any discovered migration configuration. */
  lemma BootstrapOutcome(env: Environment)
    ensures Bootstrap(env).Success? <==>
      AllPresent(ModuleFiles(env), env.files) && (env.automaticMigrations || NothingPendingAtStart(env, MigrationCandidates(env)))
    ensures Bootstrap(env).Failure? && Bootstrap(env).error.FileNotFound? ==>
      Bootstrap(env).error.path in ModuleFiles(env) && Bootstrap(env).error.path !in env.files
    ensures Bootstrap(env).Failure? && Bootstrap(env).error.MigrationsPending? ==>
      !env.automaticMigrations && SomePending(env, Bootstrap(env).error.plugin, MigrationCandidates(env))
  {
    RunPluginsOutcome(env, env.definitions, InitialState(env));
  }

  /** A plugin with a missing include fails on the first missing include,
      whatever its main modules are: includes are checked before mains. */
  lemma IncludesCheckedFirst(env: Environment, d: PluginDefinition, st: State)
    requires Consistent(env, st)
    requires !AllPresent(IncludePaths(d.name, Includes(d)), env.files)
    ensures RunPlugin(env, d, st) == Failure(FileNotFound(FirstMissing(IncludePaths(d.name, Includes(d)), env.files).value))
  {
    LoadIncludesOutcome(env, d.name, Includes(d), st);
  }

  /** Running `a + b` is running `a` and then, if it succeeded, `b`. */
  lemma {:induction false} RunPluginsConcat(env: Environment, a: seq<PluginDefinition>, b: seq<PluginDefinition>, st: State)
    ensures RunPlugins(env, a + b, st) ==
      (if RunPlugins(env, a, st).Failure? then RunPlugins(env, a, st) else RunPlugins(env, b, RunPlugins(env, a, st).value))
    decreases |a|
  {
    if a == [] {
      assert a + b == b;
    } else {
      assert (a + b)[0] == a[0] && (a + b)[1..] == a[1..] + b;
      var r1 := RunPlugin(env, a[0], st);
      if r1.Success? {
        RunPluginsConcat(env, a[1..], b, r1.value);
      }
    }
  }

  /** Loading the mains `a + b` is loading `a` and, only if that
      succeeded, then `b`. */
  lemma {:induction false} LoadMainsConcat(env: Environment, plugin: PluginName, a: seq<string>, b: seq<string>, st: State)
    ensures LoadMains(env, plugin, a + b, st) ==
      (if LoadMains(env, plugin, a, st).Failure? then LoadMains(env, plugin, a, st) else LoadMains(env, plugin, b, LoadMains(env, plugin, a, st).value))
    decreases |a|
  {
    if a == [] {
      assert a + b == b;
    } else {
      assert (a + b)[0] == a[0] && (a + b)[1..] == a[1..] + b;
      var r1 := LoadMain(env, plugin, a[0], st);
      if r1.Success? {
        LoadMainsConcat(env, plugin, a[1..], b, r1.value);
      }
    }
  }

  /** The first failing main module decides its plugin's main loop: when
      the mains before `ids[k]` load and `ids[k]` fails, the loop fails with
      the error of `ids[k]`, whatever follows it. */
  lemma FirstFailingMainDecides(env: Environment, plugin: PluginName, ids: seq<string>, k: nat, st: State)
    requires k < |ids|
    requires LoadMains(env, plugin, ids[..k], st).Success?
    requires LoadMain(env, plugin, ids[k], LoadMains(env, plugin, ids[..k], st).value).Failure?
    ensures LoadMains(env, plugin, ids, st) == LoadMain(env, plugin, ids[k], LoadMains(env, plugin, ids[..k], st).value)
  {
    var st1 := LoadMains(env, plugin, ids[..k], st).value;
    assert ids == ids[..k] + ids[k..];
    LoadMainsConcat(env, plugin, ids[..k], ids[k..], st);
    assert ids[k..][0] == ids[k];
  }

  /** The first failing plugin decides the bootstrap: once the plugins
      before and including it fail, the bootstrap fails with their error
      and the plugins after it play no part. */
  lemma FailFast(env: Environment, a: seq<PluginDefinition>, b: seq<PluginDefinition>)
    requires env.definitions == a + b
    requires RunPlugins(env, a, InitialState(env)).Failure?
    ensures Bootstrap(env) == Failure(RunPlugins(env, a, InitialState(env)).error)
  {
    RunPluginsConcat(env, a, b, InitialState(env));
  }
}
