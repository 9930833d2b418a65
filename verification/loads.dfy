/** The order in which module files are loaded: plugin by plugin in graph
    order, and within a plugin every include before any main. */
module LoadOrder {
  import opened Results
  import opened Model
  import opened Seqs
  import opened Paths
  import opened Trace
  import opened ServerProgram
  import opened Reference
  import opened Discovery
  import opened Steps

  lemma {:induction false} IncludeLoadsPaths(plugin: PluginName, ids: seq<string>)
    ensures Loads(IncludeLoads(plugin, ids)) == IncludePaths(plugin, ids)
    decreases |ids|
  {
    if ids != [] {
      var head := [LoadModule(IncludePath(plugin, ids[0]))];
      FlatMapConcat(LoadOf, head, IncludeLoads(plugin, ids[1..]));
      assert FlatMap(LoadOf, head) == LoadOf(head[0]) + FlatMap(LoadOf, []);
      IncludeLoadsPaths(plugin, ids[1..]);
    }
  }

  /** Including loads exactly the include files, in declaration order. */
  lemma LoadIncludesLoads(plugin: PluginName, ids: seq<string>, st: State, st': State)
    requires LoadIncludes(plugin, ids, st) == Success(st')
    ensures Loads(st'.trace) == Loads(st.trace) + IncludePaths(plugin, ids)
  {
    FlatMapConcat(LoadOf, st.trace, IncludeLoads(plugin, ids));
    IncludeLoadsPaths(plugin, ids);
  }

  /** Running migrations loads nothing. */
  lemma MigrationsLoadNothing(env: Environment, plugin: PluginName, ts: seq<TypeDescriptor>, st: State, st': State)
    requires RunMigrations(env, plugin, ts, st) == Success(st')
    ensures Loads(st'.trace) == Loads(st.trace)
  {
    ViewUnchanged(LoadOf, st.trace, st'.trace);
  }

  /** Constructing controllers loads nothing. */
  lemma ControllersLoadNothing(plugin: PluginName, ts: seq<TypeDescriptor>, st: State)
    ensures Loads(ConstructControllers(plugin, ts, st).trace) == Loads(st.trace)
  {
    ViewUnchanged(LoadOf, st.trace, ConstructControllers(plugin, ts, st).trace);
  }

  /** A main module loads its own file and nothing else. */
  lemma LoadMainLoads(env: Environment, plugin: PluginName, id: string, st: State, st': State)
    requires LoadMain(env, plugin, id, st) == Success(st')
    ensures Loads(st'.trace) == Loads(st.trace) + [MainPath(plugin, id)]
  {
    LoadMainStep(env, plugin, id, st, st');
    var types := LoadedTypes(env, MainPath(plugin, id));
    var st1 := AfterLoad(plugin, id, st);
    assert Loads(st1.trace) == Loads(st.trace) + [MainPath(plugin, id)] by {
      FlatMapSnoc(LoadOf, st.trace, LoadModule(MainPath(plugin, id)));
    }
    var st2 := RunMigrations(env, plugin, MigrationTypes(types), st1).value;
    MigrationsLoadNothing(env, plugin, MigrationTypes(types), st1, st2);
    ControllersLoadNothing(plugin, ControllerTypes(types), st2);
  }

  lemma {:induction false} LoadMainsLoads(env: Environment, plugin: PluginName, ids: seq<string>, st: State, st': State)
    requires LoadMains(env, plugin, ids, st) == Success(st')
    ensures Loads(st'.trace) == Loads(st.trace) + MainPaths(plugin, ids)
    decreases |ids|
  {
    if ids != [] {
      LoadMainsStep(env, plugin, ids, st, st');
      var st1 := LoadMain(env, plugin, ids[0], st).value;
      LoadMainLoads(env, plugin, ids[0], st, st1);
      LoadMainsLoads(env, plugin, ids[1..], st1, st');
      AppendChain(Loads(st.trace), Loads(st1.trace), Loads(st'.trace), [MainPath(plugin, ids[0])], MainPaths(plugin, ids[1..]));
    }
  }

  /** One plugin loads its include files, then its main files. */
  lemma RunPluginLoads(env: Environment, d: PluginDefinition, st: State, st': State)
    requires RunPlugin(env, d, st) == Success(st')
    ensures Loads(st'.trace) == Loads(st.trace) + PluginModulePaths(d)
  {
    RunPluginStep(env, d, st, st');
    var st1 := LoadIncludes(d.name, Includes(d), st).value;
    LoadIncludesLoads(d.name, Includes(d), st, st1);
    LoadMainsLoads(env, d.name, Mains(d), st1, st');
    AppendChain(Loads(st.trace), Loads(st1.trace), Loads(st'.trace), IncludePaths(d.name, Includes(d)), MainPaths(d.name, Mains(d)));
  }

  lemma {:induction false} RunPluginsLoads(env: Environment, defs: seq<PluginDefinition>, st: State, st': State)
    requires RunPlugins(env, defs, st) == Success(st')
    ensures Loads(st'.trace) == Loads(st.trace) + ModulePaths(defs)
    decreases |defs|
  {
    if defs != [] {
      RunPluginsStep(env, defs, st, st');
      var st1 := RunPlugin(env, defs[0], st).value;
      RunPluginLoads(env, defs[0], st, st1);
      RunPluginsLoads(env, defs[1..], st1, st');
      AppendChain(Loads(st.trace), Loads(st1.trace), Loads(st'.trace), PluginModulePaths(defs[0]), ModulePaths(defs[1..]));
    }
  }

  /** A plugin whose `Server` section is null loads nothing and changes
      nothing. */
  lemma NullServerIsNoOp(env: Environment, d: PluginDefinition, st: State)
    requires d.server.None?
    ensures RunPlugin(env, d, st) == Success(st)
    ensures PluginModulePaths(d) == []
  {
  }

  /** A successful bootstrap loads exactly the declared module files, one
      plugin after the other in definition order, each plugin's includes
      before its mains. */
  lemma ModuleLoadOrder(env: Environment, b: Boot)
    requires Bootstrap(env) == Success(b)
    ensures Loads(b.trace) == ModuleFiles(env)
  {
    BootstrapStep(env, b);
    var st0 := InitialState(env);
    var st := Run(env).value;
    RunPluginsLoads(env, env.definitions, st0, st);
    assert Loads(st0.trace) == [] by {
      FlatMapNone(LoadOf, st0.trace);
    }
    FlatMapSnoc(LoadOf, st.trace, Raise(ServerInitialized));
  }

  lemma {:induction false} MainPathsOfPlugin(plugin: PluginName, ids: seq<string>, x: Path)
    requires x in MainPaths(plugin, ids)
    ensures exists id :: x == MainPath(plugin, id)
    decreases |ids|
  {
    if x != MainPath(plugin, ids[0]) {
      MainPathsOfPlugin(plugin, ids[1..], x);
    }
  }

  lemma {:induction false} MainPathNotInOther(q: PluginName, id: string, p: PluginName, ids: seq<string>)
    requires p != q
    ensures MainPath(q, id) !in MainPaths(p, ids)
    decreases |ids|
  {
    if ids != [] {
      MainPathsDiffer(q, id, p, ids[0]);
      MainPathNotInOther(q, id, p, ids[1..]);
    }
  }

  /** Two different plugins never load the same main module file. */
  lemma PluginsShareNoMainFile(p1: PluginName, ids1: seq<string>, p2: PluginName, ids2: seq<string>)
    requires p1 != p2
    ensures forall x :: x in MainPaths(p1, ids1) ==> x !in MainPaths(p2, ids2)
  {
    forall x | x in MainPaths(p1, ids1)
      ensures x !in MainPaths(p2, ids2)
    {
      MainPathsOfPlugin(p1, ids1, x);
      var a :| x == MainPath(p1, a);
      MainPathNotInOther(p1, a, p2, ids2);
    }
  }
}
