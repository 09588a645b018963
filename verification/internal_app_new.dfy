/** `New(params)` of internal/app/new.go with the `Params` record of
    internal/app/params.go.  The check that a runnable embeds the framework's
    runnable struct inspects Go types; it is a parameter here. */
module InternalAppNew {
  import opened Base
  import Slog

  datatype Runnable = Runnable(id: nat)

  /** A `<-chan error`. */
  datatype Chan = Chan(id: nat)

  datatype Params = Params(shutdownTimeout: int, runnables: seq<Runnable>, shutdownSig: Option<Chan>,
                           logger: Slog.Logger, logAttrs: seq<Slog.Attr>)

  datatype App = App(shutdownTimeout: int, runnables: seq<Runnable>, shutdownSig: Option<Chan>, logger: Slog.Logger)

  /** The embed check: nil when the runnable is acceptable. */
  type EmbedsCheck = Runnable -> Option<Error>

  /** The index of the first runnable that fails the check, or the length
      of the list when none does. */
  function FirstFailure(rs: seq<Runnable>, check: EmbedsCheck): (k: nat)
    ensures k <= |rs|
    ensures forall j | 0 <= j < k :: check(rs[j]).None?
    ensures k < |rs| ==> check(rs[k]).Some?
    decreases |rs|
  {
    if rs == [] then 0
    else if check(rs[0]).Some? then 0
    else
      var k := FirstFailure(rs[1..], check);
      assert forall j | 1 <= j < k + 1 :: rs[j] == rs[1..][j - 1];
      k + 1
  }

  /** What `New` returns, and the runnables it handed the logger to
      (`setRunnableLogger`) before it returned. */
  datatype NewResult = NewResult(app: Option<App>, err: Option<Error>, configured: seq<Runnable>)

  /** `New(params)`.  The attributes are added to the logger first; the
      runnables are then checked in list order and configured one by one; the
      first failing check ends `New` with its error and no app. */
  function New(p: Params, check: EmbedsCheck): (r: NewResult)
    ensures r.err.None? <==> forall i | 0 <= i < |p.runnables| :: check(p.runnables[i]).None?
    ensures r.err.None? ==> r.app == Some(App(p.shutdownTimeout, p.runnables, p.shutdownSig,
                                              Slog.Logger(p.logger.handler, p.logger.attrs + p.logAttrs)))
    ensures r.err.None? ==> r.configured == p.runnables
    ensures r.err.Some? ==> r.app.None? && exists k | 0 <= k < |p.runnables| ::
              && r.err == check(p.runnables[k])
              && r.configured == p.runnables[..k]
              && forall j | 0 <= j < k :: check(p.runnables[j]).None?
  {
    var logger := if |p.logAttrs| > 0 then Slog.WithAll(p.logger, p.logAttrs) else p.logger;
    assert p.logger.attrs + [] == p.logger.attrs;
    var app := App(p.shutdownTimeout, p.runnables, p.shutdownSig, logger);
    var k := FirstFailure(p.runnables, check);
    if k < |p.runnables| then NewResult(None, check(p.runnables[k]), p.runnables[..k])
    else NewResult(Some(app), None, p.runnables)
  }

  /** A failing runnable stops `New`: runnables after it are neither checked
      nor configured, whatever they are. */
  lemma StopsAtFirstFailure(p: Params, check: EmbedsCheck, before: seq<Runnable>, bad: Runnable, after: seq<Runnable>)
    requires p.runnables == before + [bad] + after
    requires forall j | 0 <= j < |before| :: check(before[j]).None?
    requires check(bad).Some?
    ensures New(p, check) == NewResult(None, check(bad), before)
  {
    assert p.runnables[|before|] == bad;
    assert p.runnables[..|before|] == before;
    var k := FirstFailure(p.runnables, check);
    assert forall j | 0 <= j < |before| :: p.runnables[j] == before[j];
    assert k == |before|;
  }

  /** With no attributes the logger is passed through unchanged. */
  lemma NoAttrsKeepsLogger(p: Params, check: EmbedsCheck)
    requires p.logAttrs == [] && New(p, check).app.Some?
    ensures New(p, check).app.value.logger == p.logger
  {
  }
}
