/** The data the server bootstrap works on. Everything the C# constructor
    obtains from reflection, the file system or Entity Framework is an input
    here (`Environment`); everything it does to the outside world is an
    ordered `Action` in the trace of the `State` it threads through the
    plugin loop. */
module Model {
  import opened Results

  /** A file path as its `Path.Combine` segments. */
  type Path = seq<string>

  /** `plugin.Name`: the vendor/project identity of a plugin. */
  datatype PluginName = PluginName(vendor: string, project: string)

  /** The `Server` section of a plugin definition; either list may be null. */
  datatype ServerSection = ServerSection(includes: Option<seq<string>>, mains: Option<seq<string>>)

  /** One entry of the resolved definition graph; `server` may be null. */
  datatype PluginDefinition = PluginDefinition(name: PluginName, server: Option<ServerSection>)

  /** What the YAML type inspector reports of one property of a
      configuration type: its (already naming-converted) name and whether it
      has a setter. */
  datatype PropertyDescriptor = PropertyDescriptor(name: string, canWrite: bool)

  /** A `ControllerConfiguration` subclass: its type name, the `FileName` of
      its default instance, and its properties as the inner inspector lists
      them. */
  datatype ConfigurationType = ConfigurationType(typeName: string, fileName: string, properties: seq<PropertyDescriptor>)

  /** The direct base type of a class, as far as the bootstrap looks at it. */
  datatype BaseType =
    | ControllerBase
    | ConfigurableControllerBase(configuration: ConfigurationType)
    | MigrationConfigurationBase(entity: string)
    | OtherBase

  /** What reflection reports of one type of a main module. */
  datatype TypeDescriptor = TypeDescriptor(
    name: string,
    isAbstract: bool,
    isClass: bool,
    baseType: BaseType,
    derivesFromController: bool)

  /** The scope a controller's logger is created with. */
  datatype LogScope =
    | DatabaseLog          // "Database"
    | PluginLog(plugin: PluginName)  // "Plugin|{name}"

  /** A configuration object handed to a controller, identified by where it
      was loaded from; its contents are opaque to the bootstrap. */
  datatype LoadedConfiguration =
    | DatabaseConfiguration(fileName: string)
    | PluginConfiguration(plugin: PluginName, fileName: string, typeName: string)

  /** One constructor argument of a controller. `RpcArg(h)` is the
      `h`-th `RpcHandler` created during bootstrap. */
  datatype Argument =
    | LoggerArg(scope: LogScope)
    | EventsArg
    | RpcArg(handle: nat)
    | ConfigurationArg(configuration: LoadedConfiguration)

  /** An entry of the controller registry: the type instantiated and the
      argument list it was constructed with. */
  datatype ControllerEntry = ControllerEntry(typeName: string, args: seq<Argument>)

  /** An externally visible step of the bootstrap, in the order taken. */
  datatype Action =
    | LoadModule(path: Path)
    | ApplyMigrations(plugin: PluginName, migrationType: string, migrations: seq<string>)
    | WriteConfiguration(path: Path, properties: seq<PropertyDescriptor>)
    | Construct(entry: ControllerEntry)
    | Raise(event: string)

  /** The exceptions the bootstrap throws on its own account. */
  datatype Error =
    | FileNotFound(path: Path)
    | MigrationsPending(plugin: PluginName)

  /** Everything the bootstrap learns from outside:
      - `definitions`: the resolved plugin definitions, in graph order;
      - `files`: the paths that exist when the bootstrap starts;
      - `modules`: the types of each main module, by its path;
      - `pending`: the migrations pending at start, by migration type name;
      - `automaticMigrations`: the core setting of that name. */
  datatype Environment = Environment(
    definitions: seq<PluginDefinition>,
    files: set<Path>,
    modules: map<Path, seq<TypeDescriptor>>,
    pending: map<string, seq<string>>,
    automaticMigrations: bool)

  /** The bootstrap's running state: the files that exist now, the
      migrations applied so far (as migration type / migration id pairs),
      the actions taken, and the number of RPC handlers created. */
  datatype State = State(
    files: set<Path>,
    schema: set<(string, string)>,
    trace: seq<Action>,
    nextRpc: nat)

  /** A completed bootstrap: the actions taken, the final files and
      schema, and the two numbers of the closing log line. */
  datatype Boot = Boot(
    trace: seq<Action>,
    files: set<Path>,
    schema: set<(string, string)>,
    pluginsLoaded: nat,
    controllersCreated: nat)
}
