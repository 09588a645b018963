/** The `App` record of pkg/ezapp/app.go and its functional options from
    pkg/ezapp/appoptions.go.  Runnables and cleanup functions are opaque
    values; an option is a pure update of the record. */
module EzappApp {
  import opened Base

  datatype Runnable = Runnable(id: nat)

  /** A `func(context.Context) error` cleanup value. */
  datatype Cleanup = Cleanup(id: nat)

  datatype App = App(runnables: seq<Runnable>, cleanup: Option<Cleanup>)

  type AppOption = App -> App

  /** `WithRunnables(rs...)`: appends `rs` after the runnables already there. */
  function WithRunnables(rs: seq<Runnable>): AppOption {
    (a: App) => a.(runnables := a.runnables + rs)
  }

  /** `WithCleanup(c)`: sets the cleanup, nil included. */
  function WithCleanup(c: Option<Cleanup>): AppOption {
    (a: App) => a.(cleanup := c)
  }

  /** `Construct(opts...)`: the options applied to the zero `App{}`. */
  function Construct(opts: seq<AppOption>): App {
    ApplyAll(App([], None), opts)
  }

  /** No options: no runnables and a nil cleanup. */
  lemma ConstructEmpty()
    ensures Construct([]).runnables == [] && Construct([]).cleanup == None
  {
  }

  lemma WithRunnablesAppends(a: App, rs: seq<Runnable>)
    ensures WithRunnables(rs)(a).runnables == a.runnables + rs
    ensures |WithRunnables(rs)(a).runnables| == |a.runnables| + |rs|
    ensures WithRunnables(rs)(a).cleanup == a.cleanup
  {
  }

  lemma WithCleanupSetsOnlyCleanup(a: App, c: Option<Cleanup>)
    ensures WithCleanup(c)(a).cleanup == c
    ensures WithCleanup(c)(a).runnables == a.runnables
  {
  }

  /** The later of two cleanups wins. */
  lemma WithCleanupLastWins(a: App, c1: Option<Cleanup>, c2: Option<Cleanup>)
    ensures WithCleanup(c2)(WithCleanup(c1)(a)) == WithCleanup(c2)(a)
  {
  }

  function RunnablesOptions(xss: seq<seq<Runnable>>): (opts: seq<AppOption>)
    ensures |opts| == |xss|
  {
    seq(|xss|, i requires 0 <= i < |xss| => WithRunnables(xss[i]))
  }

  /** Repeated `WithRunnables` calls accumulate in argument order; the count
      is the sum of the argument counts; the cleanup is untouched. */
  lemma {:induction false} WithRunnablesAccumulate(a: App, xss: seq<seq<Runnable>>)
    ensures ApplyAll(a, RunnablesOptions(xss)).runnables == a.runnables + Flatten(xss)
    ensures |ApplyAll(a, RunnablesOptions(xss)).runnables| == |a.runnables| + SumLengths(xss)
    ensures ApplyAll(a, RunnablesOptions(xss)).cleanup == a.cleanup
    decreases |xss|
  {
    if xss != [] {
      var opts := RunnablesOptions(xss);
      assert opts[1..] == RunnablesOptions(xss[1..]);
      var a' := WithRunnables(xss[0])(a);
      WithRunnablesAccumulate(a', xss[1..]);
      assert a.runnables + xss[0] + Flatten(xss[1..]) == a.runnables + Flatten(xss);
    }
  }
}
