/** The `serverInitialized` event: raised once, as the very last action of
    a successful bootstrap, after every plugin has been processed. */
module Lifecycle {
  import opened Results
  import opened Model
  import opened Seqs
  import opened Trace
  import opened ServerProgram
  import opened Steps

  lemma ServerInitializedLast(env: Environment, b: Boot)
    requires Bootstrap(env) == Success(b)
    ensures Signals(b.trace) == [ServerInitialized]
    ensures |b.trace| >= 2 && b.trace[|b.trace| - 1] == Raise(ServerInitialized)
    ensures forall i :: 0 <= i < |b.trace| - 1 ==> !b.trace[i].Raise?
  {
    BootstrapStep(env, b);
    var st0 := InitialState(env);
    var st := Run(env).value;
    assert Signals(st0.trace) == [] by {
      FlatMapNone(SignalOf, st0.trace);
    }
    assert Signals(st.trace) == [] by {
      ViewUnchanged(SignalOf, st0.trace, st.trace);
    }
    FlatMapSnoc(SignalOf, st.trace, Raise(ServerInitialized));
    forall i | 0 <= i < |b.trace| - 1
      ensures !b.trace[i].Raise?
    {
      assert b.trace[i] == st.trace[i];
      if i < |st0.trace| {
        assert st.trace[i] == st0.trace[i];
      }
    }
  }
}
