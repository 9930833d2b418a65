/** The configuration files a bootstrap leaves behind. Every configurable
    controller's file exists afterwards; a file is written only when it was
    missing, so none is written twice and none that existed is touched; and
    what is written is the serializer's view of the defaults. */
module ConfigFiles {
  import opened Results
  import opened Model
  import opened Seqs
  import opened Paths
  import opened TypeInspector
  import opened Discovery
  import opened Trace
  import opened ServerProgram
  import opened Reference
  import opened Steps

  /** What the written files say about a state, given the files `before`
      the bootstrap: each file written once, exactly the new files were
      written, and only serializable properties were written. */
  ghost predicate WriteLog(before: set<Path>, st: State) {
    && before <= st.files
    && NoDuplicates(Written(st.trace))
    && Elements(Written(st.trace)) == st.files - before
    && (forall p :: p in WrittenProperties(st.trace) ==> Serialized(p))
  }

  /** Appending an action that writes nothing keeps the log. */
  lemma SilentStep(before: set<Path>, st: State, a: Action)
    requires WriteLog(before, st)
    requires !a.WriteConfiguration?
    ensures WriteLog(before, st.(trace := st.trace + [a]))
  {
    FlatMapSnoc(WriteOf, st.trace, a);
    FlatMapSnoc(PropertiesOf, st.trace, a);
  }

  lemma MaterializeKeepsLog(before: set<Path>, plugin: PluginName, cfg: ConfigurationType, st: State)
    requires WriteLog(before, st)
    ensures WriteLog(before, MaterializeDefault(plugin, cfg, st))
  {
    var path := ConfigPath(plugin, cfg.fileName);
    if path !in st.files {
      var a := WriteConfiguration(path, GetProperties(cfg.properties));
      FlatMapSnoc(WriteOf, st.trace, a);
      FlatMapSnoc(PropertiesOf, st.trace, a);
      NoDuplicatesSnoc(Written(st.trace), path);
    }
  }

  lemma ConstructControllerKeepsLog(before: set<Path>, plugin: PluginName, t: TypeDescriptor, st: State)
    requires WriteLog(before, st)
    ensures WriteLog(before, ConstructController(plugin, t, st))
  {
    var st1 := if IsConfigurable(t) then MaterializeDefault(plugin, t.baseType.configuration, st) else st;
    if IsConfigurable(t) {
      MaterializeKeepsLog(before, plugin, t.baseType.configuration, st);
    }
    SilentStep(before, st1, Construct(Instantiate(plugin, t, st.nextRpc)));
  }

  lemma {:induction false} ConstructControllersKeepsLog(before: set<Path>, plugin: PluginName, ts: seq<TypeDescriptor>, st: State)
    requires WriteLog(before, st)
    ensures WriteLog(before, ConstructControllers(plugin, ts, st))
    decreases |ts|
  {
    if ts != [] {
      ConstructControllerKeepsLog(before, plugin, ts[0], st);
      ConstructControllersKeepsLog(before, plugin, ts[1..], ConstructController(plugin, ts[0], st));
    }
  }

  lemma MigrationsKeepLog(env: Environment, before: set<Path>, plugin: PluginName, ts: seq<TypeDescriptor>, st: State, st': State)
    requires WriteLog(before, st)
    requires RunMigrations(env, plugin, ts, st) == Success(st')
    ensures WriteLog(before, st')
  {
    ViewUnchanged(WriteOf, st.trace, st'.trace);
    ViewUnchanged(PropertiesOf, st.trace, st'.trace);
  }

  lemma LoadMainKeepsLog(env: Environment, before: set<Path>, plugin: PluginName, id: string, st: State, st': State)
    requires WriteLog(before, st)
    requires LoadMain(env, plugin, id, st) == Success(st')
    ensures WriteLog(before, st')
  {
    LoadMainStep(env, plugin, id, st, st');
    var types := LoadedTypes(env, MainPath(plugin, id));
    var st1 := AfterLoad(plugin, id, st);
    SilentStep(before, st, LoadModule(MainPath(plugin, id)));
    var st2 := RunMigrations(env, plugin, MigrationTypes(types), st1).value;
    MigrationsKeepLog(env, before, plugin, MigrationTypes(types), st1, st2);
    ConstructControllersKeepsLog(before, plugin, ControllerTypes(types), st2);
  }

  lemma {:induction false} LoadMainsKeepsLog(env: Environment, before: set<Path>, plugin: PluginName, ids: seq<string>, st: State, st': State)
    requires WriteLog(before, st)
    requires LoadMains(env, plugin, ids, st) == Success(st')
    ensures WriteLog(before, st')
    decreases |ids|
  {
    if ids != [] {
      LoadMainsStep(env, plugin, ids, st, st');
      var st1 := LoadMain(env, plugin, ids[0], st).value;
      LoadMainKeepsLog(env, before, plugin, ids[0], st, st1);
      LoadMainsKeepsLog(env, before, plugin, ids[1..], st1, st');
    }
  }

  lemma IncludesKeepLog(before: set<Path>, plugin: PluginName, ids: seq<string>, st: State, st': State)
    requires WriteLog(before, st)
    requires LoadIncludes(plugin, ids, st) == Success(st')
    ensures WriteLog(before, st')
  {
    ViewUnchanged(WriteOf, st.trace, st'.trace);
    ViewUnchanged(PropertiesOf, st.trace, st'.trace);
  }

  lemma RunPluginKeepsLog(env: Environment, before: set<Path>, d: PluginDefinition, st: State, st': State)
    requires WriteLog(before, st)
    requires RunPlugin(env, d, st) == Success(st')
    ensures WriteLog(before, st')
  {
    RunPluginStep(env, d, st, st');
    var st1 := LoadIncludes(d.name, Includes(d), st).value;
    IncludesKeepLog(before, d.name, Includes(d), st, st1);
    LoadMainsKeepsLog(env, before, d.name, Mains(d), st1, st');
  }

  lemma {:induction false} RunPluginsKeepsLog(env: Environment, before: set<Path>, defs: seq<PluginDefinition>, st: State, st': State)
    requires WriteLog(before, st)
    requires RunPlugins(env, defs, st) == Success(st')
    ensures WriteLog(before, st')
    decreases |defs|
  {
    if defs != [] {
      RunPluginsStep(env, defs, st, st');
      var st1 := RunPlugin(env, defs[0], st).value;
      RunPluginKeepsLog(env, before, defs[0], st, st1);
      RunPluginsKeepsLog(env, before, defs[1..], st1, st');
    }
  }

  /** The files a list of controller types reads are those of its
      candidates. */
  lemma {:induction false} ConfigFilesOfTag(plugin: PluginName, ts: seq<TypeDescriptor>)
    ensures ConfigFilesOf(plugin, ts) == ConfigPaths(Tag(plugin, ts))
    decreases |ts|
  {
    if ts != [] {
      ConfigFilesOfTag(plugin, ts[1..]);
      assert Tag(plugin, ts)[1..] == Tag(plugin, ts[1..]);
    }
  }

  lemma {:induction false} ConfigPathsConcat(a: seq<Candidate>, b: seq<Candidate>)
    ensures ConfigPaths(a + b) == ConfigPaths(a) + ConfigPaths(b)
    decreases |a|
  {
    if a == [] {
      assert a + b == b;
    } else {
      assert (a + b)[0] == a[0] && (a + b)[1..] == a[1..] + b;
      ConfigPathsConcat(a[1..], b);
    }
  }

  lemma LoadMainFiles(env: Environment, plugin: PluginName, id: string, st: State, st': State)
    requires LoadMain(env, plugin, id, st) == Success(st')
    ensures st'.files == st.files + ConfigPaths(Tag(plugin, ControllerTypes(LoadedTypes(env, MainPath(plugin, id)))))
  {
    LoadMainStep(env, plugin, id, st, st');
    ConfigFilesOfTag(plugin, ControllerTypes(LoadedTypes(env, MainPath(plugin, id))));
  }

  lemma {:induction false} LoadMainsFiles(env: Environment, plugin: PluginName, ids: seq<string>, st: State, st': State)
    requires LoadMains(env, plugin, ids, st) == Success(st')
    ensures st'.files == st.files + ConfigPaths(MainsControllers(env, plugin, ids))
    decreases |ids|
  {
    if ids != [] {
      LoadMainsStep(env, plugin, ids, st, st');
      var st1 := LoadMain(env, plugin, ids[0], st).value;
      var head := Tag(plugin, ControllerTypes(LoadedTypes(env, MainPath(plugin, ids[0]))));
      LoadMainFiles(env, plugin, ids[0], st, st1);
      LoadMainsFiles(env, plugin, ids[1..], st1, st');
      ConfigPathsConcat(head, MainsControllers(env, plugin, ids[1..]));
    }
  }

  lemma RunPluginFiles(env: Environment, d: PluginDefinition, st: State, st': State)
    requires RunPlugin(env, d, st) == Success(st')
    ensures st'.files == st.files + ConfigPaths(MainsControllers(env, d.name, Mains(d)))
  {
    RunPluginStep(env, d, st, st');
    LoadMainsFiles(env, d.name, Mains(d), LoadIncludes(d.name, Includes(d), st).value, st');
  }

  lemma {:induction false} RunPluginsFiles(env: Environment, defs: seq<PluginDefinition>, st: State, st': State)
    requires RunPlugins(env, defs, st) == Success(st')
    ensures st'.files == st.files + ConfigPaths(DefsControllers(env, defs))
    decreases |defs|
  {
    if defs != [] {
      RunPluginsStep(env, defs, st, st');
      var st1 := RunPlugin(env, defs[0], st).value;
      RunPluginFiles(env, defs[0], st, st1);
      RunPluginsFiles(env, defs[1..], st1, st');
      ConfigPathsConcat(MainsControllers(env, defs[0].name, Mains(defs[0])), DefsControllers(env, defs[1..]));
    }
  }

  /** After a successful bootstrap every configurable controller's file
      exists and nothing else was added; exactly the files that were
      missing were written, each once; and every property written is a
      writable one other than `file_name`. */
  lemma ConfigurationFilesWritten(env: Environment, b: Boot)
    requires Bootstrap(env) == Success(b)
    ensures b.files == env.files + ConfigPaths(ControllerCandidates(env))
    ensures Elements(Written(b.trace)) == ConfigPaths(ControllerCandidates(env)) - env.files
    ensures NoDuplicates(Written(b.trace))
    ensures forall p :: p in WrittenProperties(b.trace) ==> p.canWrite && p.name != FileNameProperty
  {
    BootstrapStep(env, b);
    var st0 := InitialState(env);
    var st := Run(env).value;
    assert WriteLog(env.files, st0) by {
      FlatMapNone(WriteOf, st0.trace);
      FlatMapNone(PropertiesOf, st0.trace);
    }
    RunPluginsKeepsLog(env, env.files, env.definitions, st0, st);
    RunPluginsFiles(env, env.definitions, st0, st);
    SilentStep(env.files, st, Raise(ServerInitialized));
  }

  /** Configurable controllers of different plugins never share a
      configuration file, whatever their `FileName`s. */
  lemma PluginsShareNoConfigFile(p1: PluginName, t1: TypeDescriptor, p2: PluginName, t2: TypeDescriptor)
    requires p1 != p2
    ensures ConfigFileOf(p1, t1) !! ConfigFileOf(p2, t2)
  {
    if IsConfigurable(t1) && IsConfigurable(t2) {
      var f1 := t1.baseType.configuration.fileName;
      var f2 := t2.baseType.configuration.fileName;
      if ConfigPath(p1, f1) == ConfigPath(p2, f2) {
        ConfigPathInjective(p1, f1, p2, f2);
      }
    }
  }
}
