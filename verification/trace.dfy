/** Views of a bootstrap trace: the modules loaded, the controller registry,
    the configuration files written, the migrations applied and the events
    raised, each in the order they happened. */
module Trace {
  import opened Model
  import opened Seqs

  function LoadOf(a: Action): seq<Path> {
    if a.LoadModule? then [a.path] else []
  }

  function EntryOf(a: Action): seq<ControllerEntry> {
    if a.Construct? then [a.entry] else []
  }

  function WriteOf(a: Action): seq<Path> {
    if a.WriteConfiguration? then [a.path] else []
  }

  function PropertiesOf(a: Action): seq<PropertyDescriptor> {
    if a.WriteConfiguration? then a.properties else []
  }

  function RunOf(a: Action): seq<Action> {
    if a.ApplyMigrations? then [a] else []
  }

  function SignalOf(a: Action): seq<string> {
    if a.Raise? then [a.event] else []
  }

  /** The module files loaded, includes and mains alike. */
  function Loads(t: seq<Action>): seq<Path> {
    FlatMap(LoadOf, t)
  }

  /** The controller registry: every controller constructed. */
  function Registry(t: seq<Action>): seq<ControllerEntry> {
    FlatMap(EntryOf, t)
  }

  /** The configuration files written. */
  function Written(t: seq<Action>): seq<Path> {
    FlatMap(WriteOf, t)
  }

  /** Every property written to any configuration file. */
  function WrittenProperties(t: seq<Action>): seq<PropertyDescriptor> {
    FlatMap(PropertiesOf, t)
  }

  /** The migration updates applied. */
  function MigrationRuns(t: seq<Action>): seq<Action> {
    FlatMap(RunOf, t)
  }

  /** The process-wide events raised. */
  function Signals(t: seq<Action>): seq<string> {
    FlatMap(SignalOf, t)
  }

  /** A view of a trace that extends `t` is the view of `t` followed by
      the view of the extension. */
  lemma ViewSplit<U>(f: Action -> seq<U>, t: seq<Action>, t': seq<Action>)
    requires t <= t'
    ensures FlatMap(f, t') == FlatMap(f, t) + FlatMap(f, t'[|t|..])
  {
    assert t' == t + t'[|t|..];
    FlatMapConcat(f, t, t'[|t|..]);
  }

  /** Appending actions that a view ignores leaves the view as it was. */
  lemma ViewUnchanged<U>(f: Action -> seq<U>, t: seq<Action>, t': seq<Action>)
    requires t <= t'
    requires forall i :: |t| <= i < |t'| ==> f(t'[i]) == []
    ensures FlatMap(f, t') == FlatMap(f, t)
  {
    ViewSplit(f, t, t');
    var e := t'[|t|..];
    forall i | 0 <= i < |e|
      ensures f(e[i]) == []
    {
      assert e[i] == t'[|t| + i];
    }
    FlatMapNone(f, e);
  }
}
