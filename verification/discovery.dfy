/** Type discovery over a loaded main module: which of its types are
    migration configurations and which are controllers. */
module Discovery {
  import opened Model
  import opened Seqs

  /** Only non-abstract classes are considered at all. */
  predicate IsConcreteClass(t: TypeDescriptor) {
    !t.isAbstract && t.isClass
  }

  /** The direct base type is `MigrationConfiguration<T>`. */
  predicate IsMigrationConfiguration(t: TypeDescriptor) {
    t.baseType.MigrationConfigurationBase?
  }

  /** The type derives, directly or not, from `Controller`. The second
      test at line 95 names the open generic `ConfigurableController<>`, of
      which no type is a subclass, so it adds nothing. */
  predicate IsController(t: TypeDescriptor) {
    t.derivesFromController
  }

  /** The direct base type is `ConfigurableController<T>`. */
  predicate IsConfigurable(t: TypeDescriptor) {
    t.baseType.ConfigurableControllerBase?
  }

  function ConcreteTypes(ts: seq<TypeDescriptor>): seq<TypeDescriptor> {
    Filter(IsConcreteClass, ts)
  }

  function MigrationTypes(types: seq<TypeDescriptor>): seq<TypeDescriptor> {
    Filter(IsMigrationConfiguration, types)
  }

  function ControllerTypes(types: seq<TypeDescriptor>): seq<TypeDescriptor> {
    Filter(IsController, types)
  }

  /** A module type is run as a migration configuration exactly when it is a
      non-abstract class whose direct base is `MigrationConfiguration<T>`,
      and module order is kept. */
  lemma DiscoveredMigrations(ts: seq<TypeDescriptor>)
    ensures forall t :: t in MigrationTypes(ConcreteTypes(ts)) <==>
      t in ts && !t.isAbstract && t.isClass && t.baseType.MigrationConfigurationBase?
    ensures IsSubsequence(MigrationTypes(ConcreteTypes(ts)), ConcreteTypes(ts))
  {
  }

  /** A module type is constructed as a controller exactly when it is a
      non-abstract class deriving from `Controller`, and module order is
      kept. */
  lemma DiscoveredControllers(ts: seq<TypeDescriptor>)
    ensures forall t :: t in ControllerTypes(ConcreteTypes(ts)) <==>
      t in ts && !t.isAbstract && t.isClass && t.derivesFromController
    ensures IsSubsequence(ControllerTypes(ConcreteTypes(ts)), ConcreteTypes(ts))
  {
  }
}
