/** The `Program()` constructor of the server: the database controller,
    then, plugin by plugin in graph order, its include modules, its main
    modules, and for each main module its pending migrations and its
    controllers; finally the `serverInitialized` event. Any exception ends
    the whole bootstrap. */
module ServerProgram {
  import opened Results
  import opened Model
  import opened Seqs
  import opened Paths
  import opened TypeInspector
  import opened Discovery
  import opened Trace

  const ServerInitialized := "serverInitialized"
  const DatabaseControllerType := "DatabaseController"
  const DatabaseConfigurationFile := "database.yml"

  /** The built-in database controller, constructed before any plugin with
      the first RPC handler. */
  function DatabaseEntry(): ControllerEntry {
    ControllerEntry(DatabaseControllerType,
      [LoggerArg(DatabaseLog), EventsArg, RpcArg(0), ConfigurationArg(DatabaseConfiguration(DatabaseConfigurationFile))])
  }

  /** The plugin's include module ids, or none when its `Server` section
      or that section's include list is null. */
  function Includes(d: PluginDefinition): seq<string> {
    match d.server
    case None => []
    case Some(s) => s.includes.GetOr([])
  }

  /** The plugin's main module ids, or none when its `Server` section or
      that section's main list is null. */
  function Mains(d: PluginDefinition): seq<string> {
    match d.server
    case None => []
    case Some(s) => s.mains.GetOr([])
  }

  /** The types reflection reports for the main module at `path`. */
  function ModuleTypes(env: Environment, path: Path): seq<TypeDescriptor> {
    if path in env.modules then env.modules[path] else []
  }

  /** The types of a loaded main module that discovery looks at. */
  function LoadedTypes(env: Environment, path: Path): seq<TypeDescriptor> {
    ConcreteTypes(ModuleTypes(env, path))
  }

  /** The migrations of a migration type that were pending at start. */
  function PendingAtStart(env: Environment, migrationType: string): seq<string> {
    if migrationType in env.pending then env.pending[migrationType] else []
  }

  /** `GetPendingMigrations()`: what was pending at start and has not been
      applied since, in the migration system's order. */
  function PendingMigrations(env: Environment, schema: set<(string, string)>, migrationType: string): (r: seq<string>)
    ensures forall m :: m in r <==> m in PendingAtStart(env, migrationType) && (migrationType, m) !in schema
    ensures IsSubsequence(r, PendingAtStart(env, migrationType))
  {
    Filter(NotApplied(schema, migrationType), PendingAtStart(env, migrationType))
  }

  /** Whether a migration of the given type is absent from the schema. */
  function NotApplied(schema: set<(string, string)>, migrationType: string): string -> bool {
    m => (migrationType, m) !in schema
  }

  /** Applying what is pending leaves nothing pending. */
  lemma AppliedLeavesNothingPending(env: Environment, schema: set<(string, string)>, migrationType: string)
    ensures PendingMigrations(env, schema + MarkApplied(migrationType, PendingMigrations(env, schema, migrationType)), migrationType) == []
  {
    var schema' := schema + MarkApplied(migrationType, PendingMigrations(env, schema, migrationType));
    FilterKeepsNone(NotApplied(schema', migrationType), PendingAtStart(env, migrationType));
  }

  /** The schema entries recorded by applying `migrations`. */
  function MarkApplied(migrationType: string, migrations: seq<string>): set<(string, string)> {
    set m | m in migrations :: (migrationType, m)
  }

  /** What every step of the bootstrap preserves: actions are only
      appended, files only appear (and only configuration files), applied
      migrations stay applied, RPC handlers are only added, and no event is
      raised before the end. */
  ghost predicate Grows(st: State, st': State) {
    && st.trace <= st'.trace
    && st.files <= st'.files
    && (forall p :: p in st'.files && p !in st.files ==> IsConfigPath(p))
    && st.schema <= st'.schema
    && st.nextRpc <= st'.nextRpc
    && (forall i :: |st.trace| <= i < |st'.trace| ==> !st'.trace[i].Raise?)
  }

  /** A step that touches no migration: the schema is unchanged and no
      update was applied. */
  ghost predicate SchemaFrozen(st: State, st': State)
    requires st.trace <= st'.trace
  {
    && st'.schema == st.schema
    && (forall i :: |st.trace| <= i < |st'.trace| ==> !st'.trace[i].ApplyMigrations?)
  }

  /** `Grows`, and with automatic migrations off the schema is frozen. */
  ghost predicate Extends(env: Environment, st: State, st': State) {
    && Grows(st, st')
    && (!env.automaticMigrations ==> SchemaFrozen(st, st'))
  }

  /** Growth composes, and the later state agrees with the middle one on
      everything the middle one appended. */
  lemma GrowsTransitive(s1: State, s2: State, s3: State)
    requires Grows(s1, s2) && Grows(s2, s3)
    ensures Grows(s1, s3)
    ensures forall i :: |s1.trace| <= i < |s2.trace| ==> s3.trace[i] == s2.trace[i]
  {
    assert s2.trace == s3.trace[..|s2.trace|];
  }

  lemma FrozenTransitive(s1: State, s2: State, s3: State)
    requires Grows(s1, s2) && SchemaFrozen(s1, s2)
    requires Grows(s2, s3) && SchemaFrozen(s2, s3)
    ensures Grows(s1, s3) && SchemaFrozen(s1, s3)
  {
    GrowsTransitive(s1, s2, s3);
  }

  lemma ExtendsTransitive(env: Environment, s1: State, s2: State, s3: State)
    requires Extends(env, s1, s2) && Extends(env, s2, s3)
    ensures Extends(env, s1, s3)
  {
    GrowsTransitive(s1, s2, s3);
  }

  lemma FrozenExtends(env: Environment, s1: State, s2: State)
    requires Grows(s1, s2) && SchemaFrozen(s1, s2)
    ensures Extends(env, s1, s2)
  {
  }

  /** The migration gate for one migration configuration type: nothing
      pending is a no-op whatever the setting; something pending is an
      error naming the plugin when automatic migrations are off, and is
      applied otherwise. Afterwards nothing is pending for the type. */
  function MigrationGate(env: Environment, plugin: PluginName, t: TypeDescriptor, st: State): (r: Result<State, Error>)
    ensures PendingMigrations(env, st.schema, t.name) == [] ==> r == Success(st)
    ensures r.Failure? <==> PendingMigrations(env, st.schema, t.name) != [] && !env.automaticMigrations
    ensures r.Failure? ==> r.error == MigrationsPending(plugin)
    ensures r.Success? ==> PendingMigrations(env, r.value.schema, t.name) == []
    ensures r.Success? ==> Extends(env, st, r.value)
    ensures r.Success? ==> r.value.files == st.files && r.value.nextRpc == st.nextRpc
    ensures r.Success? ==> forall i :: |st.trace| <= i < |r.value.trace| ==> r.value.trace[i].ApplyMigrations?
    ensures r.Success? && PendingMigrations(env, st.schema, t.name) != [] ==>
      r.value == st.(schema := st.schema + MarkApplied(t.name, PendingMigrations(env, st.schema, t.name)),
                     trace := st.trace + [ApplyMigrations(plugin, t.name, PendingMigrations(env, st.schema, t.name))])
  {
    var pending := PendingMigrations(env, st.schema, t.name);
    if pending == [] then Success(st)
    else if !env.automaticMigrations then Failure(MigrationsPending(plugin))
    else
      var schema := st.schema + MarkApplied(t.name, pending);
      AppliedLeavesNothingPending(env, st.schema, t.name);
      Success(st.(schema := schema, trace := st.trace + [ApplyMigrations(plugin, t.name, pending)]))
  }

  /** Lines 80-92: the gate for every migration type of a main module,
      in module order, stopping at the first error. */
  function RunMigrations(env: Environment, plugin: PluginName, ts: seq<TypeDescriptor>, st: State): (r: Result<State, Error>)
    ensures r.Success? ==> Extends(env, st, r.value)
    ensures r.Success? ==> r.value.files == st.files && r.value.nextRpc == st.nextRpc
    ensures r.Success? ==> forall i :: |st.trace| <= i < |r.value.trace| ==> r.value.trace[i].ApplyMigrations?
    decreases |ts|
  {
    if ts == [] then Success(st)
    else
      var st1 :- MigrationGate(env, plugin, ts[0], st);
      var r := RunMigrations(env, plugin, ts[1..], st1);
      assert r.Success? ==> Extends(env, st, r.value) && forall i :: |st.trace| <= i < |r.value.trace| ==> r.value.trace[i].ApplyMigrations? by {
        if r.Success? {
          ExtendsTransitive(env, st, st1, r.value);
          GrowsTransitive(st, st1, r.value);
        }
      }
      r
  }

  /** The constructor arguments of a plugin controller (lines 97-130): a
      logger for the plugin, the shared event manager and a new RPC
      handler; a configurable controller also gets its configuration,
      loaded by plugin and `FileName`. */
  function Instantiate(plugin: PluginName, t: TypeDescriptor, handle: nat): (e: ControllerEntry)
    ensures e.typeName == t.name
    ensures |e.args| == (if IsConfigurable(t) then 4 else 3)
    ensures e.args[..3] == [LoggerArg(PluginLog(plugin)), EventsArg, RpcArg(handle)]
    ensures IsConfigurable(t) ==>
      e.args[3] == ConfigurationArg(PluginConfiguration(plugin, t.baseType.configuration.fileName, t.baseType.configuration.typeName))
  {
    var args := [LoggerArg(PluginLog(plugin)), EventsArg, RpcArg(handle)];
    match t.baseType
    case ConfigurableControllerBase(cfg) =>
      ControllerEntry(t.name, args + [ConfigurationArg(PluginConfiguration(plugin, cfg.fileName, cfg.typeName))])
    case _ =>
      ControllerEntry(t.name, args)
  }

  /** Lines 112-124: write the default configuration file when, and only
      when, it does not exist yet. Afterwards it exists. */
  function MaterializeDefault(plugin: PluginName, cfg: ConfigurationType, st: State): (st': State)
    ensures ConfigPath(plugin, cfg.fileName) in st'.files
    ensures ConfigPath(plugin, cfg.fileName) in st.files ==> st' == st
    ensures ConfigPath(plugin, cfg.fileName) !in st.files ==>
      st' == st.(files := st.files + {ConfigPath(plugin, cfg.fileName)},
                 trace := st.trace + [WriteConfiguration(ConfigPath(plugin, cfg.fileName), GetProperties(cfg.properties))])
  {
    var path := ConfigPath(plugin, cfg.fileName);
    if path in st.files then st
    else st.(files := st.files + {path}, trace := st.trace + [WriteConfiguration(path, GetProperties(cfg.properties))])
  }

  /** The configuration file a controller type reads, if it is configurable. */
  function ConfigFileOf(plugin: PluginName, t: TypeDescriptor): set<Path> {
    if IsConfigurable(t) then {ConfigPath(plugin, t.baseType.configuration.fileName)} else {}
  }

  /** Lines 96-135 for one controller type: materialise its configuration
      if it is configurable, then construct it with the next RPC handler. */
  function ConstructController(plugin: PluginName, t: TypeDescriptor, st: State): (st': State)
    ensures Grows(st, st') && SchemaFrozen(st, st')
    ensures st'.nextRpc == st.nextRpc + 1
    ensures st'.files == st.files + ConfigFileOf(plugin, t)
    ensures forall i :: |st.trace| <= i < |st'.trace| ==> st'.trace[i].WriteConfiguration? || st'.trace[i].Construct?
    ensures |st'.trace| == |st.trace| + (if ConfigFileOf(plugin, t) <= st.files then 1 else 2)
    ensures st'.trace[|st'.trace| - 1] == Construct(Instantiate(plugin, t, st.nextRpc))
    ensures !(ConfigFileOf(plugin, t) <= st.files) ==>
      st'.trace[|st.trace|] == WriteConfiguration(ConfigPath(plugin, t.baseType.configuration.fileName), GetProperties(t.baseType.configuration.properties))
  {
    var built := Construct(Instantiate(plugin, t, st.nextRpc));
    if IsConfigurable(t) then
      var st1 := MaterializeDefault(plugin, t.baseType.configuration, st);
      LayoutRoots(plugin, t.baseType.configuration.fileName);
      st1.(trace := st1.trace + [built], nextRpc := st.nextRpc + 1)
    else
      st.(trace := st.trace + [built], nextRpc := st.nextRpc + 1)
  }

  /** The configuration files read by a list of controller types. */
  function ConfigFilesOf(plugin: PluginName, ts: seq<TypeDescriptor>): set<Path>
    decreases |ts|
  {
    if ts == [] then {} else ConfigFileOf(plugin, ts[0]) + ConfigFilesOf(plugin, ts[1..])
  }

  /** Lines 95-136: every controller type of a main module, in order. */
  function ConstructControllers(plugin: PluginName, ts: seq<TypeDescriptor>, st: State): (st': State)
    ensures Grows(st, st') && SchemaFrozen(st, st')
    ensures st'.nextRpc == st.nextRpc + |ts|
    ensures st'.files == st.files + ConfigFilesOf(plugin, ts)
    ensures forall i :: |st.trace| <= i < |st'.trace| ==> st'.trace[i].WriteConfiguration? || st'.trace[i].Construct?
    decreases |ts|
  {
    if ts == [] then st
    else
      var st1 := ConstructController(plugin, ts[0], st);
      var st2 := ConstructControllers(plugin, ts[1..], st1);
      FrozenTransitive(st, st1, st2);
      GrowsTransitive(st, st1, st2);
      st2
  }

  /** Lines 70-137 for one main module: check the file, load it, run its
      migrations, then construct its controllers. */
  function LoadMain(env: Environment, plugin: PluginName, id: string, st: State): (r: Result<State, Error>)
    ensures r.Success? ==> Extends(env, st, r.value)
  {
    var path := MainPath(plugin, id);
    if path !in st.files then Failure(FileNotFound(path))
    else
      var types := LoadedTypes(env, path);
      var st1 := st.(trace := st.trace + [LoadModule(path)]);
      var st2 :- RunMigrations(env, plugin, MigrationTypes(types), st1);
      var st3 := ConstructControllers(plugin, ControllerTypes(types), st2);
      FrozenExtends(env, st, st1);
      FrozenExtends(env, st2, st3);
      ExtendsTransitive(env, st, st1, st2);
      ExtendsTransitive(env, st, st2, st3);
      Success(st3)
  }

  /** Line 70: every main module of a plugin, in order. */
  function LoadMains(env: Environment, plugin: PluginName, ids: seq<string>, st: State): (r: Result<State, Error>)
    ensures r.Success? ==> Extends(env, st, r.value)
    decreases |ids|
  {
    if ids == [] then Success(st)
    else
      var st1 :- LoadMain(env, plugin, ids[0], st);
      var r := LoadMains(env, plugin, ids[1..], st1);
      assert r.Success? ==> Extends(env, st, r.value) by {
        if r.Success? { ExtendsTransitive(env, st, st1, r.value); }
      }
      r
  }

  /** The load actions of a list of include modules. */
  function IncludeLoads(plugin: PluginName, ids: seq<string>): (r: seq<Action>)
    ensures forall i :: 0 <= i < |r| ==> r[i].LoadModule? && IsModulePath(r[i].path)
    decreases |ids|
  {
    if ids == [] then [] else [LoadModule(IncludePath(plugin, ids[0]))] + IncludeLoads(plugin, ids[1..])
  }

  /** Lines 61-67: every include module of a plugin, in order. Including
      changes nothing but the trace. */
  function LoadIncludes(plugin: PluginName, ids: seq<string>, st: State): (r: Result<State, Error>)
    ensures r.Success? ==> r.value == st.(trace := st.trace + IncludeLoads(plugin, ids))
    decreases |ids|
  {
    if ids == [] then Success(st)
    else
      var path := IncludePath(plugin, ids[0]);
      if path !in st.files then Failure(FileNotFound(path))
      else
        var r := LoadIncludes(plugin, ids[1..], st.(trace := st.trace + [LoadModule(path)]));
        assert st.trace + [LoadModule(path)] + IncludeLoads(plugin, ids[1..]) == st.trace + IncludeLoads(plugin, ids);
        r
  }

  /** Lines 58-137: one plugin, includes before mains. */
  function RunPlugin(env: Environment, d: PluginDefinition, st: State): (r: Result<State, Error>)
    ensures r.Success? ==> Extends(env, st, r.value)
  {
    var st1 :- LoadIncludes(d.name, Includes(d), st);
    var r := LoadMains(env, d.name, Mains(d), st1);
    assert r.Success? ==> Extends(env, st, r.value) by {
      if r.Success? {
        FrozenExtends(env, st, st1);
        ExtendsTransitive(env, st, st1, r.value);
      }
    }
    r
  }

  /** Lines 56-138: every plugin, in graph order, stopping at the first
      error. */
  function RunPlugins(env: Environment, defs: seq<PluginDefinition>, st: State): (r: Result<State, Error>)
    ensures r.Success? ==> Extends(env, st, r.value)
    decreases |defs|
  {
    if defs == [] then Success(st)
    else
      var st1 :- RunPlugin(env, defs[0], st);
      var r := RunPlugins(env, defs[1..], st1);
      assert r.Success? ==> Extends(env, st, r.value) by {
        if r.Success? { ExtendsTransitive(env, st, st1, r.value); }
      }
      r
  }

  /** The state once the database controller exists (line 50). */
  function InitialState(env: Environment): State {
    State(env.files, {}, [Construct(DatabaseEntry())], 1)
  }

  /** The whole constructor: on success the trace ends with the
      `serverInitialized` event and the summary counts the definitions and
      the registry. */
  function Bootstrap(env: Environment): (r: Result<Boot, Error>)
    ensures r.Success? ==> |r.value.trace| >= 2 && r.value.trace[0] == Construct(DatabaseEntry())
    ensures r.Success? ==> r.value.trace[|r.value.trace| - 1] == Raise(ServerInitialized)
    ensures r.Success? ==> r.value.pluginsLoaded == |env.definitions|
    ensures r.Success? ==> r.value.controllersCreated == |Registry(r.value.trace[..|r.value.trace| - 1])|
  {
    var st :- RunPlugins(env, env.definitions, InitialState(env));
    var trace := st.trace + [Raise(ServerInitialized)];
    Success(Boot(trace, st.files, st.schema, |env.definitions|, |Registry(st.trace)|))
  }
}
