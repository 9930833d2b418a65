/** Declarative descriptions of what a bootstrap over an environment
    touches, written as plain flattenings of the definitions rather than as
    a stateful loop: the module files it needs, the migration types and the
    controller types it discovers, and the registry it should end with. */
module Reference {
  import opened Model
  import opened Paths
  import opened Discovery
  import opened ServerProgram

  /** A type discovered in a main module of a plugin. */
  datatype Candidate = Candidate(plugin: PluginName, t: TypeDescriptor)

  /** Each type paired with the plugin whose module declares it. */
  function Tag(plugin: PluginName, ts: seq<TypeDescriptor>): (r: seq<Candidate>)
    ensures |r| == |ts|
    ensures forall c :: c in r <==> c.plugin == plugin && c.t in ts
    decreases |ts|
  {
    if ts == [] then [] else [Candidate(plugin, ts[0])] + Tag(plugin, ts[1..])
  }

  function IncludePaths(plugin: PluginName, ids: seq<string>): seq<Path>
    decreases |ids|
  {
    if ids == [] then [] else [IncludePath(plugin, ids[0])] + IncludePaths(plugin, ids[1..])
  }

  function MainPaths(plugin: PluginName, ids: seq<string>): seq<Path>
    decreases |ids|
  {
    if ids == [] then [] else [MainPath(plugin, ids[0])] + MainPaths(plugin, ids[1..])
  }

  /** The module files of one plugin: its includes, then its mains. */
  function PluginModulePaths(d: PluginDefinition): seq<Path> {
    IncludePaths(d.name, Includes(d)) + MainPaths(d.name, Mains(d))
  }

  /** The module files of a list of plugins, plugin by plugin. */
  function ModulePaths(defs: seq<PluginDefinition>): seq<Path>
    decreases |defs|
  {
    if defs == [] then [] else PluginModulePaths(defs[0]) + ModulePaths(defs[1..])
  }

  /** The migration configuration types of the given main modules. */
  function MainsMigrations(env: Environment, plugin: PluginName, ids: seq<string>): seq<Candidate>
    decreases |ids|
  {
    if ids == [] then []
    else Tag(plugin, MigrationTypes(LoadedTypes(env, MainPath(plugin, ids[0])))) + MainsMigrations(env, plugin, ids[1..])
  }

  function DefsMigrations(env: Environment, defs: seq<PluginDefinition>): seq<Candidate>
    decreases |defs|
  {
    if defs == [] then [] else MainsMigrations(env, defs[0].name, Mains(defs[0])) + DefsMigrations(env, defs[1..])
  }

  /** The controller types of the given main modules. */
  function MainsControllers(env: Environment, plugin: PluginName, ids: seq<string>): seq<Candidate>
    decreases |ids|
  {
    if ids == [] then []
    else Tag(plugin, ControllerTypes(LoadedTypes(env, MainPath(plugin, ids[0])))) + MainsControllers(env, plugin, ids[1..])
  }

  function DefsControllers(env: Environment, defs: seq<PluginDefinition>): seq<Candidate>
    decreases |defs|
  {
    if defs == [] then [] else MainsControllers(env, defs[0].name, Mains(defs[0])) + DefsControllers(env, defs[1..])
  }

  /** Every module file the environment's definitions name. */
  function ModuleFiles(env: Environment): seq<Path> {
    ModulePaths(env.definitions)
  }

  /** Every migration configuration type of every main module. */
  function MigrationCandidates(env: Environment): seq<Candidate> {
    DefsMigrations(env, env.definitions)
  }

  /** Every controller type of every main module, in load order. */
  function ControllerCandidates(env: Environment): seq<Candidate> {
    DefsControllers(env, env.definitions)
  }

  /** The registry entries of `cs`, the first made with RPC handler `k`. */
  function Numbered(cs: seq<Candidate>, k: nat): (r: seq<ControllerEntry>)
    ensures |r| == |cs|
    decreases |cs|
  {
    if cs == [] then [] else [Instantiate(cs[0].plugin, cs[0].t, k)] + Numbered(cs[1..], k + 1)
  }

  /** The database controller, then every controller type in load order. */
  function ExpectedRegistry(env: Environment): seq<ControllerEntry> {
    [DatabaseEntry()] + Numbered(ControllerCandidates(env), 1)
  }

  /** The configuration files read by the configurable ones of `cs`. */
  function ConfigPaths(cs: seq<Candidate>): set<Path>
    decreases |cs|
  {
    if cs == [] then {} else ConfigFileOf(cs[0].plugin, cs[0].t) + ConfigPaths(cs[1..])
  }

  /** The schema entries of every migration that was pending at start for
      a migration type of `cs`. */
  function AppliedBy(env: Environment, cs: seq<Candidate>): set<(string, string)>
    decreases |cs|
  {
    if cs == [] then {} else MarkApplied(cs[0].t.name, PendingAtStart(env, cs[0].t.name)) + AppliedBy(env, cs[1..])
  }

  predicate AllPresent(paths: seq<Path>, files: set<Path>) {
    forall p :: p in paths ==> p in files
  }

  /** No candidate has a migration that is pending against `schema`. */
  predicate NothingPending(env: Environment, schema: set<(string, string)>, cs: seq<Candidate>) {
    forall c :: c in cs ==> PendingMigrations(env, schema, c.t.name) == []
  }

  /** No candidate had a migration pending when the bootstrap started. */
  predicate NothingPendingAtStart(env: Environment, cs: seq<Candidate>) {
    forall c :: c in cs ==> PendingAtStart(env, c.t.name) == []
  }
}
