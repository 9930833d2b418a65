# NFive server bootstrap, modelled in Dafny

This project models the server bootstrap of NFive, which is the `Program()`
constructor in `Server/Program.cs`, together with the `PluginTypeInspector`
property filter that the constructor hands to the YAML serializer. The
constructor runs these steps in order:

1. It creates the built-in database controller.
2. It walks the plugin definitions in graph order.
3. For each plugin it loads every include module and then every main module.
4. For each main module it:
   - finds the non-abstract classes;
   - runs the pending migrations of every migration configuration, or
     refuses when automatic migrations are off;
   - constructs every controller type, first writing a default
     configuration file for a configurable controller whose file is
     missing.
5. It raises `serverInitialized` and logs how many plugins were loaded and
   how many controllers were created.

Any missing module file or refused migration throws, and the throw ends the
whole bootstrap.

Everything the constructor gets from outside becomes part of an
`Environment`:

- the plugin definitions;
- the files that exist;
- the types each main module exposes, as descriptors with abstractness,
  class-ness, direct base type and whether the type derives from
  `Controller`;
- the migrations pending for each migration configuration at start;
- the automatic-migrations setting.

`Bootstrap` is a pure `Result`-returning fold over that environment. On
success it returns a `Boot`, which holds:

- the ordered trace of effects, one action per module load, migration
  update, configuration write, controller construction and the final
  event;
- the files that exist afterwards;
- the applied migrations;
- the two counts the closing log line prints.

The controller registry, the modules loaded, the configuration files
written, the migrations applied and the events raised are all views of
that trace.

Modules:

- `Model`: the records.
- `Paths`: on-disk layout.
- `TypeInspector`: the property filter.
- `Discovery`: type selection.
- `Trace`: views of the trace.
- `ServerProgram`: the constructor itself.
- `Steps`: one step of each loop.
- `Reference`: declarative flattenings of the definitions.
- The proofs, one module per concern: `LoadOrder`, `ControllerRegistry`,
  `MigrationSafety`, `ConfigFiles`, `Lifecycle` and `Outcome`.
- `Seqs` and `Results`: shared sequence and result utilities.

Where the code behaves differently from what its names suggest, the model
follows the code:

- A type is a controller candidate exactly when it derives from
  `Controller`. The second test at line 95 names the open generic
  `ConfigurableController<>`, of which no type is a subclass, so that test
  adds nothing.
- A configurable controller and a migration configuration are recognised
  only by their *direct* base type (lines 80 and 105).
- A failed bootstrap returns only its error, because the constructor
  throws. The controllers built before the throw are never handed out, so
  they do not appear in the result. The effects already made on the outside
  world are not rolled back, though: configuration files written and
  migrations applied before the failure stay on disk and in the database.
  The model does not return them (see "Left out").

## Model

| member | source | states |
|---|---|---|
| TypeInspector.GetProperties | Server/Program.cs:155-158 | a property is kept exactly when it is writable and not named `file_name`, and the kept properties appear in the inner inspector's order |
| TypeInspector.GetPropertiesIdempotent | Server/Program.cs:155-158 | filtering an already filtered property list changes nothing |
| TypeInspector.GetPropertiesConcat | Server/Program.cs:155-158 | the filter works property by property: filtering a concatenation is concatenating the filtered parts |
| Discovery.DiscoveredMigrations | Server/Program.cs:75-80 | a module type is run as a migration configuration exactly when it is a non-abstract class whose direct base is `MigrationConfiguration<T>`, in module order |
| Discovery.DiscoveredControllers | Server/Program.cs:94-95 | a module type is constructed as a controller exactly when it is a non-abstract class deriving from `Controller`, in module order |
| Paths.LayoutRoots | Server/Program.cs:61-73 | include and main files live under the plugin root, and configuration files under the configuration root |
| Paths.MainPathsDiffer | Server/Program.cs:72 | as lists of path segments, main module files of different plugins differ |
| Paths.ConfigPathInjective | Server/Program.cs:112-123 | as a list of path segments, a configuration file determines its plugin and file name |
| ServerProgram.PendingMigrations | Server/Program.cs:85-89 | the migrations still pending are those pending at start and not applied since, in the migration system's order |
| ServerProgram.MigrationGate | Server/Program.cs:85-91 | with nothing pending the gate is a no-op whatever the setting; it fails, naming the plugin, exactly when something is pending and automatic migrations are off; otherwise it applies exactly the type's pending migrations, adding those to the schema and logging one update that names the plugin, the type and those migrations; afterwards nothing is pending for the type |
| ServerProgram.RunMigrations | Server/Program.cs:80-92 | running the gates appends only migration updates, keeps files and RPC handlers, and never changes the schema when automatic migrations are off |
| ServerProgram.Instantiate | Server/Program.cs:97-130 | a plain controller gets exactly a logger for its plugin, the shared event manager and the given RPC handler; a configurable one also gets, as a fourth argument, its configuration loaded by plugin and `FileName` |
| ServerProgram.MaterializeDefault | Server/Program.cs:112-124 | afterwards the configuration file exists; an existing file is left alone; a missing one is written once with the filtered default properties |
| ServerProgram.ConstructController | Server/Program.cs:95-136 | constructing one controller uses exactly one new RPC handler and adds only its own configuration file; it appends a configuration write exactly when that file is new, and then the construction with the next RPC handler as its last action |
| ServerProgram.ConstructControllers | Server/Program.cs:95-136 | constructing a module's controllers uses one RPC handler per type, adds exactly their configuration files, and touches no migration |
| ServerProgram.LoadMain | Server/Program.cs:70-137 | loading a main module only appends to the trace, only adds configuration files, never raises an event, and keeps the schema when automatic migrations are off |
| ServerProgram.LoadMains | Server/Program.cs:70-137 | loading a plugin's main modules in order only appends to the trace, only adds configuration files, never raises an event, and keeps the schema when automatic migrations are off |
| ServerProgram.LoadIncludes | Server/Program.cs:61-67 | including changes nothing but the trace, and appends one load per include in order |
| ServerProgram.RunPlugin | Server/Program.cs:58-137 | processing one plugin keeps every earlier effect and the bootstrap invariants |
| ServerProgram.RunPlugins | Server/Program.cs:56-138 | processing the plugins in order keeps every earlier effect and the bootstrap invariants |
| ServerProgram.Bootstrap | Server/Program.cs:50-142 | a successful bootstrap begins with constructing the database controller and ends with raising `serverInitialized`; it logs the number of definitions as the plugins loaded and the number of controllers constructed before the event |
| LoadOrder.LoadMainLoads | Server/Program.cs:70-75 | a main module loads its own file and nothing else |
| LoadOrder.RunPluginLoads | Server/Program.cs:58-73 | a plugin loads its include files, in order, and then its main files, in order |
| LoadOrder.NullServerIsNoOp | Server/Program.cs:61-70 | a plugin whose `Server` section is null names no module file and changes nothing |
| LoadOrder.PluginsShareNoMainFile | Server/Program.cs:72 | two different plugins never name the same main module file |
| LoadOrder.ModuleLoadOrder | Server/Program.cs:56-75 | a successful bootstrap loads exactly the declared module files, plugin by plugin in definition order, each plugin's includes before its mains |
| ControllerRegistry.ConstructControllersRegistry | Server/Program.cs:95-136 | a module's controllers are appended to the registry in type order, numbered from the next RPC handler |
| ControllerRegistry.MigrationsConstructNothing | Server/Program.cs:80-92 | running migrations adds nothing to the registry |
| ControllerRegistry.LoadMainRegistry | Server/Program.cs:70-136 | a main module appends one registry entry per controller type it declares, and nothing else |
| ControllerRegistry.RegistryMatchesReference | Server/Program.cs:50-142 | the registry of a successful bootstrap is the database controller followed by every controller type in definition, main and type order; the logged controller count includes the database controller, and the logged plugin count is the number of definitions |
| ControllerRegistry.DatabaseControllerFirst | Server/Program.cs:50-56 | the database controller is constructed before anything else happens and is registry entry 0 |
| ControllerRegistry.RegistryEntries | Server/Program.cs:97-135 | registry entry `i` holds the `i`-th RPC handler; every plugin entry has its plugin's logger and the shared event manager, with four arguments exactly when it is configurable and three otherwise |
| ControllerRegistry.RpcHandlersFresh | Server/Program.cs:97-101 | no two registry entries share an RPC handler |
| Lifecycle.ServerInitializedLast | Server/Program.cs:140 | a successful bootstrap raises `serverInitialized` exactly once, as its very last action |
| MigrationSafety.PendingMonotone | Server/Program.cs:85-91 | applying more migrations never makes one pending again |
| MigrationSafety.RunMigrationsSettles | Server/Program.cs:80-92 | after a module's gates nothing is pending for any of its migration types |
| MigrationSafety.MigrationsSettled | Server/Program.cs:80-92 | after a successful bootstrap no discovered migration configuration has a pending migration |
| MigrationSafety.GateApplies | Server/Program.cs:85-91 | after a gate passes, the schema holds every migration that was pending at start for that type, and nothing more than before for any other type |
| MigrationSafety.RunMigrationsApplies | Server/Program.cs:80-92 | a module's gates add to the schema exactly the start-pending migrations of its migration types |
| MigrationSafety.MigrationsApplied | Server/Program.cs:56-92 | after a successful bootstrap the schema is exactly the set of migrations pending at start for the discovered migration configurations: no other type's migrations are applied |
| MigrationSafety.ManualMigrationsApplyNothing | Server/Program.cs:87 | with automatic migrations off, a successful bootstrap applies no migration and leaves the schema untouched |
| MigrationSafety.MigrationsBeforeControllers | Server/Program.cs:73-136 | within a main module, its file is loaded first, nothing else is loaded or raised, and no migration is applied after a configuration file is written or a controller constructed |
| ConfigFiles.MaterializeKeepsLog | Server/Program.cs:112-124 | writing a default file keeps three facts: every file is written at most once, the written files are exactly the new ones, and only serializable properties are written |
| ConfigFiles.PluginsShareNoConfigFile | Server/Program.cs:112-123 | configurable controllers of different plugins never share a configuration file, whatever their file names |
| ConfigFiles.ConfigurationFilesWritten | Server/Program.cs:104-127 | after a successful bootstrap the files are those that existed plus every configurable controller's file; exactly the missing ones were written, each once, and no existing file was overwritten; every written property is writable and not `file_name` |
| Outcome.FirstMissing | Server/Program.cs:61-64 | finds a missing file exactly when some path is missing; what it finds is a path of the list that does not exist, and every path before it exists |
| Outcome.RunMigrationsOutcome | Server/Program.cs:80-92 | a module's gates succeed exactly when automatic migrations are on or none of its migration types had anything pending, and otherwise fail naming the plugin |
| Outcome.LoadMainOutcome | Server/Program.cs:70-92 | a main module succeeds exactly when its `.net.dll` file exists and its migrations pass the gate; a missing file is always reported as that file, before any migration is looked at; otherwise it fails on its plugin's pending migrations |
| Outcome.LoadIncludesOutcome | Server/Program.cs:61-67 | the includes fail exactly when an include `.dll` file is missing, and then on the first missing one |
| Outcome.IncludesCheckedFirst | Server/Program.cs:58-73 | a plugin with a missing include fails on the first missing include whatever its main modules are |
| Outcome.BootstrapOutcome | Server/Program.cs:56-92 | a bootstrap succeeds exactly when every declared module file exists and, with automatic migrations off, nothing was pending for any discovered migration configuration; a file failure names a missing declared module file, and a migration failure names a plugin with pending migrations |
| Outcome.RunPluginsConcat | Server/Program.cs:56-138 | processing `a + b` is processing `a` and, only if that succeeded, then `b` |
| Outcome.LoadMainsConcat | Server/Program.cs:70-137 | loading the mains `a + b` is loading `a` and, only if that succeeded, then `b` |
| Outcome.FirstFailingMainDecides | Server/Program.cs:70-92 | when the mains before a given one load and it fails, the plugin's main loop fails with its error, whatever mains follow |
| Outcome.FailFast | Server/Program.cs:56-140 | once a prefix of the definitions fails, the bootstrap fails with that error and no later plugin affects it |

## Left out

- Lines 36-45 (working directory, loading `nfive.yml`, log level, the map name and game type natives, `RpcManager.Configure`): host setup that decides nothing in the bootstrap.
- Line 50: the database configuration is an opaque value named by its file, `database.yml`. Its loading and contents are not modelled.
- Line 53 (`DefinitionGraph.Load`): its code is not part of this model. The definitions are given in order, and no topological-order property is claimed.
- Lines 58, 89 and 142: log text. The two counts of the closing line are modelled as `Boot.pluginsLoaded` and `Boot.controllersCreated`.
- Lines 66 and 75 (assembly loading and reflection): a main module's types are an input. A module with no entry exposes no types. Include modules contribute no types to discovery, as in the source.
- Lines 82-83 and 91 (Entity Framework): the migrations pending at start are an input, and applying them is recorded as schema entries. Failures inside the migration engine are not modelled.
- Lines 110, 121, 127 and 133 (`Activator.CreateInstance`, YAML, `ConfigurationManager.Load`): construction and deserialization failures are not modelled.
- Lines 110, 121 and 127: a loaded configuration is the value keyed by plugin, file name and configuration type. The default object is its list of property descriptors, with names already converted by the naming convention.
- Line 114 (`Directory.CreateDirectory`): directories are implicit in paths.
- Lines 66, 75, 114 and 123 (`AppDomain.Load`, `Assembly.LoadFrom`, `GetTypes`, `Directory.CreateDirectory`, `File.WriteAllText`): I/O and loader failures are not modelled. Reading or loading a module that exists, and creating or writing a file, always succeed.
- Effects that outlive a failure: when the bootstrap throws, the configuration files already written (line 123) and the migrations already applied (line 91) stay behind. `Bootstrap` returns only the error, and no lemma describes what is left on disk or in the database after a failure.
- Paths are lists of `Path.Combine` segments compared exactly. Names that contain a directory separator, and case-insensitive file systems, can make two different plugins or ids name the same file in the source. The lemmas that keep plugins' files apart do not cover those cases.
- Line 140: the event bus is reduced to recording the raise.
- Other processes changing files during the bootstrap: not modelled. Only the bootstrap's own writes add files.
- Plugin name rendering (`Plugin|{name}`, `FullName`): a plugin name is a vendor/project record, and its text form is not modelled.
- Client/Rpc/InboundMessage.cs: a plain data record whose only behaviour is a clock-dependent default. Nothing in it is modelled.
- ConfigFiles.ConfigurationFilesWritten: states that every written property is writable and not `file_name`, but not which configuration type each file came from. `ServerProgram.MaterializeDefault` states that exact content for each write.
- Outcome.FailFast: states fail-fast for one environment whose definitions split as `a + b`. It does not compare environments with different definition lists.
