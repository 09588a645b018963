/** `App.Run` of internal/app/app.go as a decision function.

    Each runnable runs in an errgroup goroutine; a non-nil `Run` error is
    passed to that runnable's `HandleError`, and an error that survives it
    cancels the stop context and becomes the goroutine's result.  `g.Wait()`
    yields the first non-nil goroutine result in completion order, and every
    `select` branch waits for it.  An execution is given abstractly: each
    runnable's `Run` result, the order in which the runnables returned (the
    ones that never return are missing), and the `select` case taken. */
module InternalApp {
  import opened Base

  datatype Runnable = Runnable(id: nat)

  /** The App of app.go; its signal channel, stop context and logger are
      runtime plumbing. */
  datatype App = App(runnables: seq<Runnable>)

  /** `New(runnables, logger)` (app.go). */
  function New(runnables: seq<Runnable>): (a: App)
    ensures a.runnables == runnables
  {
    App(runnables)
  }

  /** The behaviour of the runnables' `HandleError` methods. */
  type Handling = (Runnable, Error) -> Option<Error>

  datatype SelectCase = SigTerm | CtxDone | GroupDone

  datatype Execution = Execution(runErrs: seq<Option<Error>>, order: seq<nat>, selected: SelectCase)

  /** `runErrs` has one entry per runnable and `order` lists distinct runnables. */
  predicate WellFormed(a: App, runErrs: seq<Option<Error>>, order: seq<nat>) {
    && |runErrs| == |a.runnables|
    && (forall k | 0 <= k < |order| :: order[k] < |a.runnables|)
    && (forall j, k | 0 <= j < k < |order| :: order[j] != order[k])
  }

  predicate IsExecution(a: App, ex: Execution) {
    WellFormed(a, ex.runErrs, ex.order)
  }

  /** One errgroup goroutine: nil stays nil, an error goes through `HandleError`. */
  function GoroutineResult(r: Runnable, runErr: Option<Error>, handle: Handling): (res: Option<Error>)
    ensures runErr.None? ==> res.None?
    ensures runErr.Some? ==> res == handle(r, runErr.value)
  {
    match runErr
    case None => None
    case Some(e) => handle(r, e)
  }

  /** The result of the goroutine that returned k-th. */
  function ResultAt(a: App, runErrs: seq<Option<Error>>, order: seq<nat>, handle: Handling, k: nat): Option<Error>
    requires WellFormed(a, runErrs, order) && k < |order|
  {
    var i := order[k];
    GoroutineResult(a.runnables[i], runErrs[i], handle)
  }

  /** What `g.Wait()` returns: the first non-nil result from position `from` on. */
  function FirstError(a: App, runErrs: seq<Option<Error>>, order: seq<nat>, handle: Handling, from: nat): (r: Option<Error>)
    requires WellFormed(a, runErrs, order) && from <= |order|
    ensures r.None? <==> forall k | from <= k < |order| :: ResultAt(a, runErrs, order, handle, k).None?
    ensures r.Some? ==> exists k | from <= k < |order| ::
              ResultAt(a, runErrs, order, handle, k) == r
              && forall j | from <= j < k :: ResultAt(a, runErrs, order, handle, j).None?
    decreases |order| - from
  {
    if from == |order| then None
    else if ResultAt(a, runErrs, order, handle, from).Some? then ResultAt(a, runErrs, order, handle, from)
    else FirstError(a, runErrs, order, handle, from + 1)
  }

  /** The group error of an execution. */
  function GroupError(a: App, ex: Execution, handle: Handling): Option<Error>
    requires IsExecution(a, ex)
  {
    FirstError(a, ex.runErrs, ex.order, handle, 0)
  }

  /** Whether `Run` returns, with its error and whether the stop context was
      cancelled before it returned. */
  datatype RunResult = Returned(err: Option<Error>, stopCancelled: bool) | Blocked

  /** `App.Run()`.  It returns only once every runnable has returned; its
      error is the group error unless that is nil or context.Canceled, and it
      does not depend on which `select` case was taken. */
  function Run(a: App, ex: Execution, handle: Handling): (r: RunResult)
    requires IsExecution(a, ex)
    ensures r.Blocked? <==> |ex.order| < |a.runnables|
    ensures r.Returned? ==> (r.err.None? <==> (GroupError(a, ex, handle).None?
                                               || IsCanceled(GroupError(a, ex, handle).value)))
    ensures r.Returned? && r.err.Some? ==> r.err == GroupError(a, ex, handle)
    ensures r.Returned? ==> (r.stopCancelled <==>
              (ex.selected == SigTerm
               || exists k | 0 <= k < |ex.order| :: ResultAt(a, ex.runErrs, ex.order, handle, k).Some?))
  {
    if |ex.order| < |a.runnables| then Blocked
    else
      var g := GroupError(a, ex, handle);
      Returned(if g.None? || IsCanceled(g.value) then None else g, ex.selected == SigTerm || g.Some?)
  }

  /** The error `Run` returns is the first surviving error in completion
      order: it came from some runnable whose `Run` failed and whose
      `HandleError` kept an error that is not context.Canceled, and every
      runnable that finished before it contributed nil. */
  lemma {:induction false} ReturnedErrorIsFirst(a: App, ex: Execution, handle: Handling)
    requires IsExecution(a, ex)
    requires Run(a, ex, handle).Returned? && Run(a, ex, handle).err.Some?
    ensures exists k | 0 <= k < |ex.order| ::
              && ex.runErrs[ex.order[k]].Some?
              && handle(a.runnables[ex.order[k]], ex.runErrs[ex.order[k]].value) == Run(a, ex, handle).err
              && !IsCanceled(Run(a, ex, handle).err.value)
              && forall j | 0 <= j < k :: ResultAt(a, ex.runErrs, ex.order, handle, j).None?
  {
    var e := Run(a, ex, handle).err;
    var k :| 0 <= k < |ex.order| && ResultAt(a, ex.runErrs, ex.order, handle, k) == e
             && forall j | 0 <= j < k :: ResultAt(a, ex.runErrs, ex.order, handle, j).None?;
    assert ex.runErrs[ex.order[k]].Some?;
  }

  /** If every runnable's error is nil or handled, `Run` returns nil once
      all have returned. */
  lemma AllHandledReturnsNil(a: App, ex: Execution, handle: Handling)
    requires IsExecution(a, ex) && |ex.order| == |a.runnables|
    requires forall i | 0 <= i < |a.runnables| :: GoroutineResult(a.runnables[i], ex.runErrs[i], handle).None?
    ensures Run(a, ex, handle) == Returned(None, ex.selected == SigTerm)
  {
    assert forall k | 0 <= k < |ex.order| :: ResultAt(a, ex.runErrs, ex.order, handle, k).None?;
  }

  /** An unhandled error cancels the stop context. */
  lemma UnhandledErrorCancels(a: App, ex: Execution, handle: Handling, k: nat)
    requires IsExecution(a, ex) && |ex.order| == |a.runnables|
    requires k < |ex.order| && ResultAt(a, ex.runErrs, ex.order, handle, k).Some?
    ensures Run(a, ex, handle).stopCancelled
  {
  }

  /** First error wins and later ones are dropped: a runnable that returned
      context.Canceled first masks a real error from one that returned after
      it, and `Run` reports success. */
  lemma CanceledFirstMasksLaterError(x: Error)
    requires !IsCanceled(x)
    ensures var a := App([Runnable(0), Runnable(1)]);
            var ex := Execution([Some(Canceled), Some(x)], [0, 1], SigTerm);
            var passThrough := (r: Runnable, e: Error) => Some(e);
            IsExecution(a, ex) && Run(a, ex, passThrough) == Returned(None, true)
  {
    var a := App([Runnable(0), Runnable(1)]);
    var ex := Execution([Some(Canceled), Some(x)], [0, 1], SigTerm);
    var passThrough := (r: Runnable, e: Error) => Some(e);
    assert ResultAt(a, ex.runErrs, ex.order, passThrough, 0) == Some(Canceled);
  }
}
