/** The migration gate over a whole bootstrap: with automatic migrations
    off nothing is ever applied; with them on, every migration type a
    successful bootstrap discovered has nothing left pending; and within a
    main module the migrations run before any controller is touched. */
module MigrationSafety {
  import opened Results
  import opened Model
  import opened Seqs
  import opened Paths
  import opened Discovery
  import opened Trace
  import opened ServerProgram
  import opened Reference
  import opened Steps

  /** Applying more migrations never makes one pending again. */
  lemma PendingMonotone(env: Environment, schema: set<(string, string)>, schema': set<(string, string)>, name: string)
    requires schema <= schema'
    requires PendingMigrations(env, schema, name) == []
    ensures PendingMigrations(env, schema', name) == []
  {
    forall m | m in PendingAtStart(env, name)
      ensures !NotApplied(schema', name)(m)
    {
      assert m !in PendingMigrations(env, schema, name);
    }
    FilterKeepsNone(NotApplied(schema', name), PendingAtStart(env, name));
  }

  lemma NothingPendingMonotone(env: Environment, schema: set<(string, string)>, schema': set<(string, string)>, cs: seq<Candidate>)
    requires schema <= schema'
    requires NothingPending(env, schema, cs)
    ensures NothingPending(env, schema', cs)
  {
    forall c | c in cs
      ensures PendingMigrations(env, schema', c.t.name) == []
    {
      PendingMonotone(env, schema, schema', c.t.name);
    }
  }

  /** After the gates of a main module nothing is pending for its
      migration types. */
  lemma {:induction false} RunMigrationsSettles(env: Environment, plugin: PluginName, ts: seq<TypeDescriptor>, st: State, st': State)
    requires RunMigrations(env, plugin, ts, st) == Success(st')
    ensures NothingPending(env, st'.schema, Tag(plugin, ts))
    decreases |ts|
  {
    if ts != [] {
      var st1 := MigrationGate(env, plugin, ts[0], st).value;
      assert RunMigrations(env, plugin, ts[1..], st1) == Success(st');
      RunMigrationsSettles(env, plugin, ts[1..], st1, st');
      PendingMonotone(env, st1.schema, st'.schema, ts[0].name);
      assert Tag(plugin, ts) == [Candidate(plugin, ts[0])] + Tag(plugin, ts[1..]);
    }
  }

  lemma LoadMainSettles(env: Environment, plugin: PluginName, id: string, st: State, st': State)
    requires LoadMain(env, plugin, id, st) == Success(st')
    ensures NothingPending(env, st'.schema, Tag(plugin, MigrationTypes(LoadedTypes(env, MainPath(plugin, id)))))
  {
    LoadMainStep(env, plugin, id, st, st');
    var ms := MigrationTypes(LoadedTypes(env, MainPath(plugin, id)));
    var st2 := RunMigrations(env, plugin, ms, AfterLoad(plugin, id, st)).value;
    RunMigrationsSettles(env, plugin, ms, AfterLoad(plugin, id, st), st2);
    NothingPendingMonotone(env, st2.schema, st'.schema, Tag(plugin, ms));
  }

  lemma {:induction false} LoadMainsSettles(env: Environment, plugin: PluginName, ids: seq<string>, st: State, st': State)
    requires LoadMains(env, plugin, ids, st) == Success(st')
    ensures NothingPending(env, st'.schema, MainsMigrations(env, plugin, ids))
    decreases |ids|
  {
    if ids != [] {
      LoadMainsStep(env, plugin, ids, st, st');
      var st1 := LoadMain(env, plugin, ids[0], st).value;
      var head := Tag(plugin, MigrationTypes(LoadedTypes(env, MainPath(plugin, ids[0]))));
      LoadMainSettles(env, plugin, ids[0], st, st1);
      LoadMainsSettles(env, plugin, ids[1..], st1, st');
      NothingPendingMonotone(env, st1.schema, st'.schema, head);
      assert MainsMigrations(env, plugin, ids) == head + MainsMigrations(env, plugin, ids[1..]);
    }
  }

  lemma RunPluginSettles(env: Environment, d: PluginDefinition, st: State, st': State)
    requires RunPlugin(env, d, st) == Success(st')
    ensures NothingPending(env, st'.schema, MainsMigrations(env, d.name, Mains(d)))
  {
    RunPluginStep(env, d, st, st');
    LoadMainsSettles(env, d.name, Mains(d), LoadIncludes(d.name, Includes(d), st).value, st');
  }

  lemma {:induction false} RunPluginsSettles(env: Environment, defs: seq<PluginDefinition>, st: State, st': State)
    requires RunPlugins(env, defs, st) == Success(st')
    ensures NothingPending(env, st'.schema, DefsMigrations(env, defs))
    decreases |defs|
  {
    if defs != [] {
      RunPluginsStep(env, defs, st, st');
      var st1 := RunPlugin(env, defs[0], st).value;
      var head := MainsMigrations(env, defs[0].name, Mains(defs[0]));
      RunPluginSettles(env, defs[0], st, st1);
      RunPluginsSettles(env, defs[1..], st1, st');
      NothingPendingMonotone(env, st1.schema, st'.schema, head);
      assert DefsMigrations(env, defs) == head + DefsMigrations(env, defs[1..]);
    }
  }

  /** After a successful bootstrap no discovered migration configuration
      has a pending migration: a later check reports none. */
  lemma MigrationsSettled(env: Environment, b: Boot)
    requires Bootstrap(env) == Success(b)
    ensures NothingPending(env, b.schema, MigrationCandidates(env))
  {
    BootstrapStep(env, b);
    RunPluginsSettles(env, env.definitions, InitialState(env), Run(env).value);
  }

  /** With automatic migrations off a successful bootstrap applies nothing
      and leaves the schema as it found it. */
  lemma ManualMigrationsApplyNothing(env: Environment, b: Boot)
    requires Bootstrap(env) == Success(b)
    requires !env.automaticMigrations
    ensures b.schema == {}
    ensures MigrationRuns(b.trace) == []
  {
    BootstrapStep(env, b);
    var st0 := InitialState(env);
    var st := Run(env).value;
    assert MigrationRuns(st0.trace) == [] by {
      FlatMapNone(RunOf, st0.trace);
    }
    ViewUnchanged(RunOf, st0.trace, st.trace);
    FlatMapSnoc(RunOf, st.trace, Raise(ServerInitialized));
  }

  /** Within one main module: its file is loaded first, and no migration
      is applied after a configuration file is written or a controller is
      constructed. */
  lemma MigrationsBeforeControllers(env: Environment, plugin: PluginName, id: string, st: State, st': State)
    requires LoadMain(env, plugin, id, st) == Success(st')
    ensures |st'.trace| > |st.trace| && st'.trace[|st.trace|] == LoadModule(MainPath(plugin, id))
    ensures forall i :: |st.trace| < i < |st'.trace| ==> !st'.trace[i].LoadModule? && !st'.trace[i].Raise?
    ensures forall i, j :: |st.trace| <= i < j < |st'.trace| && (st'.trace[i].WriteConfiguration? || st'.trace[i].Construct?) ==>
      !st'.trace[j].ApplyMigrations?
  {
    LoadMainStep(env, plugin, id, st, st');
    var types := LoadedTypes(env, MainPath(plugin, id));
    var st1 := AfterLoad(plugin, id, st);
    var st2 := RunMigrations(env, plugin, MigrationTypes(types), st1).value;
    assert st1.trace <= st2.trace && st2.trace <= st'.trace;
    forall i | |st.trace| <= i < |st2.trace|
      ensures st'.trace[i] == st2.trace[i]
      ensures i == |st.trace| || st'.trace[i].ApplyMigrations?
    {
    }
    assert forall j :: |st2.trace| <= j < |st'.trace| ==> st'.trace[j].WriteConfiguration? || st'.trace[j].Construct?;
  }

  /** `AppliedBy` is the set of (type, migration) pairs with the type one
      of the candidates' and the migration pending for it at start. */
  lemma {:induction false} AppliedByMembers(env: Environment, cs: seq<Candidate>)
    ensures AppliedBy(env, cs) == set c, m | c in cs && m in PendingAtStart(env, c.t.name) :: (c.t.name, m)
    decreases |cs|
  {
    if cs != [] {
      AppliedByMembers(env, cs[1..]);
      var all := set c, m | c in cs && m in PendingAtStart(env, c.t.name) :: (c.t.name, m);
      var rest := set c, m | c in cs[1..] && m in PendingAtStart(env, c.t.name) :: (c.t.name, m);
      forall x | x in all
        ensures x in MarkApplied(cs[0].t.name, PendingAtStart(env, cs[0].t.name)) + rest
      {
        var c, m :| c in cs && m in PendingAtStart(env, c.t.name) && x == (c.t.name, m);
        if c != cs[0] {
          assert c in cs[1..];
        }
      }
      assert cs == [cs[0]] + cs[1..];
    }
  }

  lemma {:induction false} AppliedByConcat(env: Environment, a: seq<Candidate>, b: seq<Candidate>)
    ensures AppliedBy(env, a + b) == AppliedBy(env, a) + AppliedBy(env, b)
    decreases |a|
  {
    if a != [] {
      assert (a + b)[0] == a[0] && (a + b)[1..] == a[1..] + b;
      AppliedByConcat(env, a[1..], b);
    } else {
      assert a + b == b;
    }
  }

  /** One gate records every migration pending at start for its type,
      whether it applies them now or they were applied before. */
  lemma GateApplies(env: Environment, plugin: PluginName, t: TypeDescriptor, st: State, st': State)
    requires MigrationGate(env, plugin, t, st) == Success(st')
    ensures st'.schema == st.schema + MarkApplied(t.name, PendingAtStart(env, t.name))
  {
    var pending := PendingMigrations(env, st.schema, t.name);
    var all := PendingAtStart(env, t.name);
    forall x | x in MarkApplied(t.name, all)
      ensures x in st'.schema
    {
      var m :| m in all && x == (t.name, m);
      if x !in st.schema {
        assert m in pending;
      }
    }
    forall x | x in MarkApplied(t.name, pending)
      ensures x in MarkApplied(t.name, all)
    {
      var m :| m in pending && x == (t.name, m);
    }
  }

  lemma {:induction false} RunMigrationsApplies(env: Environment, plugin: PluginName, ts: seq<TypeDescriptor>, st: State, st': State)
    requires RunMigrations(env, plugin, ts, st) == Success(st')
    ensures st'.schema == st.schema + AppliedBy(env, Tag(plugin, ts))
    decreases |ts|
  {
    if ts != [] {
      var st1 := MigrationGate(env, plugin, ts[0], st).value;
      assert RunMigrations(env, plugin, ts[1..], st1) == Success(st');
      GateApplies(env, plugin, ts[0], st, st1);
      RunMigrationsApplies(env, plugin, ts[1..], st1, st');
      var cs := Tag(plugin, ts);
      assert cs[0] == Candidate(plugin, ts[0]) && cs[1..] == Tag(plugin, ts[1..]);
    }
  }

  lemma LoadMainApplies(env: Environment, plugin: PluginName, id: string, st: State, st': State)
    requires LoadMain(env, plugin, id, st) == Success(st')
    ensures st'.schema == st.schema + AppliedBy(env, Tag(plugin, MigrationTypes(LoadedTypes(env, MainPath(plugin, id)))))
  {
    LoadMainStep(env, plugin, id, st, st');
    var ms := MigrationTypes(LoadedTypes(env, MainPath(plugin, id)));
    var st2 := RunMigrations(env, plugin, ms, AfterLoad(plugin, id, st)).value;
    RunMigrationsApplies(env, plugin, ms, AfterLoad(plugin, id, st), st2);
  }

  lemma {:induction false} LoadMainsApplies(env: Environment, plugin: PluginName, ids: seq<string>, st: State, st': State)
    requires LoadMains(env, plugin, ids, st) == Success(st')
    ensures st'.schema == st.schema + AppliedBy(env, MainsMigrations(env, plugin, ids))
    decreases |ids|
  {
    if ids != [] {
      LoadMainsStep(env, plugin, ids, st, st');
      var st1 := LoadMain(env, plugin, ids[0], st).value;
      var head := Tag(plugin, MigrationTypes(LoadedTypes(env, MainPath(plugin, ids[0]))));
      LoadMainApplies(env, plugin, ids[0], st, st1);
      LoadMainsApplies(env, plugin, ids[1..], st1, st');
      AppliedByConcat(env, head, MainsMigrations(env, plugin, ids[1..]));
    }
  }

  lemma RunPluginApplies(env: Environment, d: PluginDefinition, st: State, st': State)
    requires RunPlugin(env, d, st) == Success(st')
    ensures st'.schema == st.schema + AppliedBy(env, MainsMigrations(env, d.name, Mains(d)))
  {
    RunPluginStep(env, d, st, st');
    LoadMainsApplies(env, d.name, Mains(d), LoadIncludes(d.name, Includes(d), st).value, st');
  }

  lemma {:induction false} RunPluginsApplies(env: Environment, defs: seq<PluginDefinition>, st: State, st': State)
    requires RunPlugins(env, defs, st) == Success(st')
    ensures st'.schema == st.schema + AppliedBy(env, DefsMigrations(env, defs))
    decreases |defs|
  {
    if defs != [] {
      RunPluginsStep(env, defs, st, st');
      var st1 := RunPlugin(env, defs[0], st).value;
      RunPluginApplies(env, defs[0], st, st1);
      RunPluginsApplies(env, defs[1..], st1, st');
      AppliedByConcat(env, MainsMigrations(env, defs[0].name, Mains(defs[0])), DefsMigrations(env, defs[1..]));
    }
  }

  /** The schema after a successful bootstrap holds exactly the migrations
      that were pending at start for the discovered migration
      configurations: each gate applies its own type's migrations and no
      others. */
  lemma MigrationsApplied(env: Environment, b: Boot)
    requires Bootstrap(env) == Success(b)
    ensures b.schema == AppliedBy(env, MigrationCandidates(env))
    ensures b.schema == set c, m | c in MigrationCandidates(env) && m in PendingAtStart(env, c.t.name) :: (c.t.name, m)
  {
    BootstrapStep(env, b);
    RunPluginsApplies(env, env.definitions, InitialState(env), Run(env).value);
    AppliedByMembers(env, MigrationCandidates(env));
  }
}
