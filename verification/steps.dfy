/** One step of each fold of the bootstrap: what a successful run of a
    fold is made of. Later proofs go through these instead of unfolding
    the folds themselves. */
module Steps {
  import opened Results
  import opened Model
  import opened Paths
  import opened Discovery
  import opened ServerProgram
  import opened Trace

  /** The state right after a main module is loaded. */
  function AfterLoad(plugin: PluginName, id: string, st: State): State {
    st.(trace := st.trace + [LoadModule(MainPath(plugin, id))])
  }

  lemma LoadMainStep(env: Environment, plugin: PluginName, id: string, st: State, st': State)
    requires LoadMain(env, plugin, id, st) == Success(st')
    ensures MainPath(plugin, id) in st.files
    ensures RunMigrations(env, plugin, MigrationTypes(LoadedTypes(env, MainPath(plugin, id))), AfterLoad(plugin, id, st)).Success?
    ensures st' == ConstructControllers(plugin, ControllerTypes(LoadedTypes(env, MainPath(plugin, id))),
      RunMigrations(env, plugin, MigrationTypes(LoadedTypes(env, MainPath(plugin, id))), AfterLoad(plugin, id, st)).value)
  {
  }

  lemma LoadMainsStep(env: Environment, plugin: PluginName, ids: seq<string>, st: State, st': State)
    requires ids != []
    requires LoadMains(env, plugin, ids, st) == Success(st')
    ensures LoadMain(env, plugin, ids[0], st).Success?
    ensures LoadMains(env, plugin, ids[1..], LoadMain(env, plugin, ids[0], st).value) == Success(st')
  {
  }

  lemma RunPluginStep(env: Environment, d: PluginDefinition, st: State, st': State)
    requires RunPlugin(env, d, st) == Success(st')
    ensures LoadIncludes(d.name, Includes(d), st).Success?
    ensures LoadMains(env, d.name, Mains(d), LoadIncludes(d.name, Includes(d), st).value) == Success(st')
  {
  }

  lemma RunPluginsStep(env: Environment, defs: seq<PluginDefinition>, st: State, st': State)
    requires defs != []
    requires RunPlugins(env, defs, st) == Success(st')
    ensures RunPlugin(env, defs[0], st).Success?
    ensures RunPlugins(env, defs[1..], RunPlugin(env, defs[0], st).value) == Success(st')
  {
  }

  /** The plugins' run, from the state with the database controller. */
  function Run(env: Environment): Result<State, Error> {
    RunPlugins(env, env.definitions, InitialState(env))
  }

  lemma BootstrapStep(env: Environment, b: Boot)
    requires Bootstrap(env) == Success(b)
    ensures Run(env).Success?
    ensures b.trace == Run(env).value.trace + [Raise(ServerInitialized)]
    ensures b.files == Run(env).value.files && b.schema == Run(env).value.schema
    ensures b.pluginsLoaded == |env.definitions|
    ensures b.controllersCreated == |Registry(Run(env).value.trace)|
  {
  }
}
