/** The controller registry a bootstrap builds: the database controller
    first, then one entry per controller type in definition, main module and
    type order, each with its own RPC handler. */
module ControllerRegistry {
  import opened Steps
  import opened Results
  import opened Model
  import opened Seqs
  import opened Paths
  import opened Discovery
  import opened Trace
  import opened ServerProgram
  import opened Reference

  lemma {:induction false} NumberedConcat(a: seq<Candidate>, b: seq<Candidate>, k: nat)
    ensures Numbered(a + b, k) == Numbered(a, k) + Numbered(b, k + |a|)
    decreases |a|
  {
    if a == [] {
      assert a + b == b;
    } else {
      assert (a + b)[1..] == a[1..] + b;
      NumberedConcat(a[1..], b, k + 1);
    }
  }

  /** The `i`-th entry of `Numbered(cs, k)` is built with handler `k + i`. */
  lemma {:induction false} NumberedAt(cs: seq<Candidate>, k: nat, i: nat)
    requires i < |cs|
    ensures Numbered(cs, k)[i] == Instantiate(cs[i].plugin, cs[i].t, k + i)
    decreases i
  {
    if i > 0 {
      NumberedAt(cs[1..], k + 1, i - 1);
    }
  }

  /** Two registry extensions in a row, numbered consecutively, are one
      extension by the concatenated candidates. */
  lemma NumberedChain(r0: seq<ControllerEntry>, r1: seq<ControllerEntry>, r2: seq<ControllerEntry>,
                      a: seq<Candidate>, b: seq<Candidate>, k0: nat, k1: nat, k2: nat)
    requires r1 == r0 + Numbered(a, k0) && k1 == k0 + |a|
    requires r2 == r1 + Numbered(b, k1) && k2 == k1 + |b|
    ensures r2 == r0 + Numbered(a + b, k0) && k2 == k0 + |a + b|
  {
    NumberedConcat(a, b, k0);
  }

  /** Constructing one controller appends its entry to the registry. */
  lemma ConstructControllerRegistry(plugin: PluginName, t: TypeDescriptor, st: State)
    ensures Registry(ConstructController(plugin, t, st).trace) == Registry(st.trace) + [Instantiate(plugin, t, st.nextRpc)]
  {
    var st1 := if IsConfigurable(t) then MaterializeDefault(plugin, t.baseType.configuration, st) else st;
    if IsConfigurable(t) && st1 != st {
      FlatMapSnoc(EntryOf, st.trace, st1.trace[|st.trace|]);
      assert st1.trace == st.trace + [st1.trace[|st.trace|]];
    }
    FlatMapSnoc(EntryOf, st1.trace, Construct(Instantiate(plugin, t, st.nextRpc)));
  }

  lemma {:induction false} ConstructControllersRegistry(plugin: PluginName, ts: seq<TypeDescriptor>, st: State)
    ensures Registry(ConstructControllers(plugin, ts, st).trace) == Registry(st.trace) + Numbered(Tag(plugin, ts), st.nextRpc)
    decreases |ts|
  {
    if ts != [] {
      var st1 := ConstructController(plugin, ts[0], st);
      var st2 := ConstructControllers(plugin, ts[1..], st1);
      assert ConstructControllers(plugin, ts, st) == st2;
      ConstructControllerRegistry(plugin, ts[0], st);
      ConstructControllersRegistry(plugin, ts[1..], st1);
      var head := [Candidate(plugin, ts[0])];
      assert Numbered(head, st.nextRpc) == [Instantiate(plugin, ts[0], st.nextRpc)];
      NumberedChain(Registry(st.trace), Registry(st1.trace), Registry(st2.trace),
        head, Tag(plugin, ts[1..]), st.nextRpc, st1.nextRpc, st2.nextRpc);
      assert Tag(plugin, ts) == head + Tag(plugin, ts[1..]);
    }
  }

  /** A main module appends one entry per controller type it declares,
      after running its migrations, which construct nothing. */
  lemma LoadMainRegistry(env: Environment, plugin: PluginName, id: string, st: State, st': State)
    requires LoadMain(env, plugin, id, st) == Success(st')
    ensures Registry(st'.trace) == Registry(st.trace) + Numbered(Tag(plugin, ControllerTypes(LoadedTypes(env, MainPath(plugin, id)))), st.nextRpc)
    ensures st'.nextRpc == st.nextRpc + |ControllerTypes(LoadedTypes(env, MainPath(plugin, id)))|
  {
    LoadMainStep(env, plugin, id, st, st');
    var types := LoadedTypes(env, MainPath(plugin, id));
    var st1 := AfterLoad(plugin, id, st);
    assert Registry(st1.trace) == Registry(st.trace) by {
      FlatMapSnoc(EntryOf, st.trace, LoadModule(MainPath(plugin, id)));
    }
    var st2 := RunMigrations(env, plugin, MigrationTypes(types), st1).value;
    MigrationsConstructNothing(env, plugin, MigrationTypes(types), st1, st2);
    ConstructControllersRegistry(plugin, ControllerTypes(types), st2);
  }

  /** Running migrations constructs nothing. */
  lemma MigrationsConstructNothing(env: Environment, plugin: PluginName, ts: seq<TypeDescriptor>, st: State, st': State)
    requires RunMigrations(env, plugin, ts, st) == Success(st')
    ensures Registry(st'.trace) == Registry(st.trace)
  {
    ViewUnchanged(EntryOf, st.trace, st'.trace);
  }

  lemma {:induction false} LoadMainsRegistry(env: Environment, plugin: PluginName, ids: seq<string>, st: State, st': State)
    requires LoadMains(env, plugin, ids, st) == Success(st')
    ensures Registry(st'.trace) == Registry(st.trace) + Numbered(MainsControllers(env, plugin, ids), st.nextRpc)
    ensures st'.nextRpc == st.nextRpc + |MainsControllers(env, plugin, ids)|
    decreases |ids|
  {
    if ids != [] {
      LoadMainsStep(env, plugin, ids, st, st');
      var st1 := LoadMain(env, plugin, ids[0], st).value;
      LoadMainRegistry(env, plugin, ids[0], st, st1);
      LoadMainsRegistry(env, plugin, ids[1..], st1, st');
      var head := Tag(plugin, ControllerTypes(LoadedTypes(env, MainPath(plugin, ids[0]))));
      NumberedChain(Registry(st.trace), Registry(st1.trace), Registry(st'.trace),
        head, MainsControllers(env, plugin, ids[1..]), st.nextRpc, st1.nextRpc, st'.nextRpc);
    }
  }

  /** Include modules construct nothing. */
  lemma LoadIncludesRegistry(plugin: PluginName, ids: seq<string>, st: State, st': State)
    requires LoadIncludes(plugin, ids, st) == Success(st')
    ensures Registry(st'.trace) == Registry(st.trace) && st'.nextRpc == st.nextRpc
  {
    ViewUnchanged(EntryOf, st.trace, st'.trace);
  }

  lemma RunPluginRegistry(env: Environment, d: PluginDefinition, st: State, st': State)
    requires RunPlugin(env, d, st) == Success(st')
    ensures Registry(st'.trace) == Registry(st.trace) + Numbered(MainsControllers(env, d.name, Mains(d)), st.nextRpc)
    ensures st'.nextRpc == st.nextRpc + |MainsControllers(env, d.name, Mains(d))|
  {
    RunPluginStep(env, d, st, st');
    var st1 := LoadIncludes(d.name, Includes(d), st).value;
    LoadIncludesRegistry(d.name, Includes(d), st, st1);
    LoadMainsRegistry(env, d.name, Mains(d), st1, st');
  }

  lemma {:induction false} RunPluginsRegistry(env: Environment, defs: seq<PluginDefinition>, st: State, st': State)
    requires RunPlugins(env, defs, st) == Success(st')
    ensures Registry(st'.trace) == Registry(st.trace) + Numbered(DefsControllers(env, defs), st.nextRpc)
    ensures st'.nextRpc == st.nextRpc + |DefsControllers(env, defs)|
    decreases |defs|
  {
    if defs != [] {
      RunPluginsStep(env, defs, st, st');
      var st1 := RunPlugin(env, defs[0], st).value;
      RunPluginRegistry(env, defs[0], st, st1);
      RunPluginsRegistry(env, defs[1..], st1, st');
      NumberedChain(Registry(st.trace), Registry(st1.trace), Registry(st'.trace),
        MainsControllers(env, defs[0].name, Mains(defs[0])), DefsControllers(env, defs[1..]), st.nextRpc, st1.nextRpc, st'.nextRpc);
    }
  }

  /** A successful bootstrap's registry is the database controller followed
      by one entry per discovered controller type, in load order, and the
      closing log line counts the definitions and every registry entry,
      the database controller included. */
  lemma RegistryMatchesReference(env: Environment, b: Boot)
    requires Bootstrap(env) == Success(b)
    ensures Registry(b.trace) == ExpectedRegistry(env)
    ensures b.controllersCreated == |ExpectedRegistry(env)| == 1 + |ControllerCandidates(env)|
    ensures b.pluginsLoaded == |env.definitions|
  {
    BootstrapStep(env, b);
    var st0 := InitialState(env);
    var st := Run(env).value;
    assert Registry(st0.trace) == [DatabaseEntry()] by {
      FlatMapSnoc(EntryOf, [], Construct(DatabaseEntry()));
      assert st0.trace == [] + [Construct(DatabaseEntry())];
    }
    RunPluginsRegistry(env, env.definitions, st0, st);
    assert Registry(b.trace) == Registry(st.trace) by {
      FlatMapSnoc(EntryOf, st.trace, Raise(ServerInitialized));
    }
  }

  /** The built-in database controller is the first action of the
      bootstrap, before any module is loaded, and the first registry
      entry. */
  lemma DatabaseControllerFirst(env: Environment, b: Boot)
    requires Bootstrap(env) == Success(b)
    ensures b.trace[0] == Construct(DatabaseEntry())
    ensures Registry(b.trace)[0] == DatabaseEntry()
  {
    BootstrapStep(env, b);
    RegistryMatchesReference(env, b);
    var st := Run(env).value;
    assert InitialState(env).trace <= st.trace;
    assert b.trace[0] == st.trace[0];
  }

  /** The entries of the expected registry for candidates `cs`: entry `i`
      holds the `i`-th RPC handler, and entry `i + 1` is built from
      candidate `i`. */
  lemma ExpectedEntries(cs: seq<Candidate>)
    ensures var reg := [DatabaseEntry()] + Numbered(cs, 1);
      && |reg| == 1 + |cs|
      && (forall i :: 0 <= i < |reg| ==> |reg[i].args| >= 3 && reg[i].args[2] == RpcArg(i))
      && (forall i :: 1 <= i < |reg| ==>
            && reg[i].typeName == cs[i - 1].t.name
            && reg[i].args[0] == LoggerArg(PluginLog(cs[i - 1].plugin))
            && reg[i].args[1] == EventsArg
            && (|reg[i].args| == 4 <==> IsConfigurable(cs[i - 1].t))
            && (|reg[i].args| == 3 <==> !IsConfigurable(cs[i - 1].t)))
  {
    var reg := [DatabaseEntry()] + Numbered(cs, 1);
    forall i | 1 <= i < |reg|
      ensures reg[i] == Instantiate(cs[i - 1].plugin, cs[i - 1].t, i)
    {
      NumberedAt(cs, 1, i - 1);
    }
    forall i | 0 <= i < |reg|
      ensures |reg[i].args| >= 3 && reg[i].args[2] == RpcArg(i)
    {
      if i > 0 {
        var e := Instantiate(cs[i - 1].plugin, cs[i - 1].t, i);
        assert e.args[..3][2] == e.args[2];
      }
    }
  }

  /** Every registry entry has its own RPC handler: entry `i` was given the
      `i`-th handler created. Plugin controllers get a logger for their
      plugin, the shared event manager and that handler, plus their
      configuration exactly when their direct base is the configurable
      controller. */
  lemma RegistryEntries(env: Environment, b: Boot)
    requires Bootstrap(env) == Success(b)
    ensures var reg := Registry(b.trace);
      var cs := ControllerCandidates(env);
      && |reg| == 1 + |cs|
      && (forall i :: 0 <= i < |reg| ==> |reg[i].args| >= 3 && reg[i].args[2] == RpcArg(i))
      && (forall i :: 1 <= i < |reg| ==>
            && reg[i].typeName == cs[i - 1].t.name
            && reg[i].args[0] == LoggerArg(PluginLog(cs[i - 1].plugin))
            && reg[i].args[1] == EventsArg
            && (|reg[i].args| == 4 <==> IsConfigurable(cs[i - 1].t))
            && (|reg[i].args| == 3 <==> !IsConfigurable(cs[i - 1].t)))
  {
    RegistryMatchesReference(env, b);
    ExpectedEntries(ControllerCandidates(env));
  }

  /** No two registry entries share an RPC handler. */
  lemma RpcHandlersFresh(env: Environment, b: Boot)
    requires Bootstrap(env) == Success(b)
    ensures var reg := Registry(b.trace);
      forall i, j :: 0 <= i < j < |reg| ==>
        |reg[i].args| >= 3 && |reg[j].args| >= 3 && reg[i].args[2] != reg[j].args[2]
  {
    RegistryEntries(env, b);
    var reg := Registry(b.trace);
    forall i, j | 0 <= i < j < |reg|
      ensures |reg[i].args| >= 3 && |reg[j].args| >= 3 && reg[i].args[2] != reg[j].args[2]
    {
      assert reg[i].args[2] == RpcArg(i) && reg[j].args[2] == RpcArg(j);
    }
  }
}
