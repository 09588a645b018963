/** `EzApp.Run` of pkg/ezapp/ezapp.go as a decision function.

    Every runnable runs in its own goroutine under one cancellable context;
    a signal cancels it, and so does an error that survives the runnable's
    `HandleError` and then the app-level handler.  `Run` waits for every
    goroutine and only then calls the cleanup function, panicking when it
    fails.  A runnable's behaviour is abstracted to: it returns by itself,
    it returns only once the context is cancelled, or it never returns. */
module EzappEzApp {
  import opened Base

  datatype Runnable = Runnable(id: nat)
  datatype ErrHandler = ErrHandler(id: nat)
  datatype CleanupFunc = CleanupFunc(id: nat)

  datatype EzApp = EzApp(runnables: seq<Runnable>, errorHandler: Option<ErrHandler>, cleanupFunc: Option<CleanupFunc>)

  /** What a runnable's `Run(ctx)` does, with the error it returns. */
  datatype Behaviour = Returns(err: Option<Error>) | ReturnsOnCancel(err: Option<Error>) | NeverReturns

  /** What the code after `runnable.Run(ctx)` did with its result. */
  datatype Handled = Handled(handleErrorCalled: bool, appHandlerCalled: bool, cancels: bool)

  /** The behaviour of the runnables' `HandleError` methods and of the
      app-level handlers. */
  type HandleError = (Runnable, Error) -> Option<Error>
  type AppHandle = (ErrHandler, Error) -> Option<Error>

  /** The error chain of one goroutine. */
  function Chain(e: EzApp, r: Runnable, runErr: Option<Error>, handle: HandleError, appHandle: AppHandle): (h: Handled)
    ensures h.handleErrorCalled <==> runErr.Some? && !IsCanceled(runErr.value)
    ensures h.appHandlerCalled ==> h.handleErrorCalled && e.errorHandler.Some?
    ensures h.handleErrorCalled ==>
              (h.appHandlerCalled <==> handle(r, runErr.value).Some? && e.errorHandler.Some?)
    ensures h.cancels ==> h.appHandlerCalled
    ensures h.appHandlerCalled ==>
              (h.cancels <==> appHandle(e.errorHandler.value, handle(r, runErr.value).value).Some?)
  {
    if runErr.None? || IsCanceled(runErr.value) then Handled(false, false, false)
    else
      var err := handle(r, runErr.value);
      if err.None? || e.errorHandler.None? then Handled(true, false, false)
      else Handled(true, true, appHandle(e.errorHandler.value, err.value).Some?)
  }

  /** Whether runnable `i` cancels the context by itself, before any cancel. */
  predicate CancelsOnItsOwn(e: EzApp, behaviours: seq<Behaviour>, handle: HandleError, appHandle: AppHandle, i: int)
    requires |behaviours| == |e.runnables|
  {
    0 <= i < |e.runnables| && behaviours[i].Returns?
    && Chain(e, e.runnables[i], behaviours[i].err, handle, appHandle).cancels
  }

  /** The context ends up cancelled: by the signal goroutine, or by a runnable
      that returned without waiting for cancellation. */
  predicate Cancelled(e: EzApp, signal: bool, behaviours: seq<Behaviour>, handle: HandleError, appHandle: AppHandle)
    requires |behaviours| == |e.runnables|
  {
    signal || exists i | 0 <= i < |e.runnables| :: CancelsOnItsOwn(e, behaviours, handle, appHandle, i)
  }

  /** The deferred cleanup: a nil cleanup function panics when called, a
      failing one makes `Run` panic with its error. */
  datatype CleanupOutcome = CleanedUp | NilCleanupPanic | CleanupPanic(err: Error)

  datatype Outcome = Hangs | Finished(cancelled: bool, cleanup: CleanupOutcome)

  /** `EzApp.Run()`: `signal` says whether SIGINT or SIGTERM arrives while the
      runnables run; `cleanupResult` is what the cleanup function returns. */
  function Run(e: EzApp, signal: bool, behaviours: seq<Behaviour>, handle: HandleError, appHandle: AppHandle,
               cleanupResult: CleanupFunc -> Option<Error>): (o: Outcome)
    requires |behaviours| == |e.runnables|
    ensures o.Finished? <==>
              (forall i | 0 <= i < |behaviours| :: !behaviours[i].NeverReturns?)
              && (Cancelled(e, signal, behaviours, handle, appHandle)
                  || forall i | 0 <= i < |behaviours| :: behaviours[i].Returns?)
    ensures o.Finished? ==> o.cancelled == Cancelled(e, signal, behaviours, handle, appHandle)
    ensures o.Finished? ==> (o.cleanup.NilCleanupPanic? <==> e.cleanupFunc.None?)
    ensures o.Finished? && e.cleanupFunc.Some? ==>
              (o.cleanup.CleanedUp? <==> cleanupResult(e.cleanupFunc.value).None?)
    ensures o.Finished? && o.cleanup.CleanupPanic? ==> Some(o.cleanup.err) == cleanupResult(e.cleanupFunc.value)
  {
    var cancelled := Cancelled(e, signal, behaviours, handle, appHandle);
    var allReturn := forall i | 0 <= i < |behaviours| ::
      match behaviours[i]
      case Returns(_) => true
      case ReturnsOnCancel(_) => cancelled
      case NeverReturns => false;
    if !allReturn then Hangs
    else
      var cleanup :=
        match e.cleanupFunc
        case None => NilCleanupPanic
        case Some(c) =>
          match cleanupResult(c)
          case None => CleanedUp
          case Some(err) => CleanupPanic(err);
      Finished(cancelled, cleanup)
  }

  /** A nil or context.Canceled run error calls no handler and cancels nothing. */
  lemma CanceledCallsNoHandler(e: EzApp, r: Runnable, handle: HandleError, appHandle: AppHandle)
    ensures Chain(e, r, None, handle, appHandle) == Handled(false, false, false)
    ensures Chain(e, r, Some(Canceled), handle, appHandle) == Handled(false, false, false)
    ensures Chain(e, r, Some(Wrapped("starting: ", Canceled)), handle, appHandle) == Handled(false, false, false)
  {
  }

  /** Without an app-level handler a persistent error never cancels, so the
      context is cancelled exactly when a signal arrives. */
  lemma {:induction false} NoAppHandlerOnlySignalCancels(e: EzApp, signal: bool, behaviours: seq<Behaviour>,
                                                         handle: HandleError, appHandle: AppHandle)
    requires |behaviours| == |e.runnables| && e.errorHandler.None?
    ensures Cancelled(e, signal, behaviours, handle, appHandle) <==> signal
  {
    forall i | 0 <= i < |e.runnables|
      ensures !CancelsOnItsOwn(e, behaviours, handle, appHandle, i)
    {
      if behaviours[i].Returns? {
        var h := Chain(e, e.runnables[i], behaviours[i].err, handle, appHandle);
        assert !h.appHandlerCalled;
      }
    }
  }

  /** A runnable waiting for cancellation keeps `Run` from returning (and the
      cleanup from running) unless something cancels; with no app-level
      handler only a signal does. */
  lemma WaitingRunnableHangsWithoutSignal(e: EzApp, behaviours: seq<Behaviour>, handle: HandleError,
                                          appHandle: AppHandle, cleanupResult: CleanupFunc -> Option<Error>, i: nat)
    requires |behaviours| == |e.runnables| && e.errorHandler.None?
    requires i < |behaviours| && behaviours[i].ReturnsOnCancel?
    ensures Run(e, false, behaviours, handle, appHandle, cleanupResult) == Hangs
  {
    NoAppHandlerOnlySignalCancels(e, false, behaviours, handle, appHandle);
  }

  /** An error that survives both handlers cancels the context, so the
      runnables waiting for cancellation return and cleanup runs. */
  lemma EscalatedErrorShutsDown(e: EzApp, behaviours: seq<Behaviour>, handle: HandleError,
                                appHandle: AppHandle, cleanupResult: CleanupFunc -> Option<Error>, i: nat)
    requires |behaviours| == |e.runnables|
    requires forall j | 0 <= j < |behaviours| :: !behaviours[j].NeverReturns?
    requires i < |behaviours| && CancelsOnItsOwn(e, behaviours, handle, appHandle, i)
    ensures Run(e, false, behaviours, handle, appHandle, cleanupResult).Finished?
    ensures Run(e, false, behaviours, handle, appHandle, cleanupResult).cancelled
  {
  }

  /** Cleanup runs even with no runnables, after the (empty) wait; a nil
      cleanup function then panics. */
  lemma NoRunnablesStillCleansUp(signal: bool, handle: HandleError, appHandle: AppHandle,
                                 cleanupResult: CleanupFunc -> Option<Error>, c: CleanupFunc)
    ensures Run(EzApp([], None, None), signal, [], handle, appHandle, cleanupResult) == Finished(signal, NilCleanupPanic)
    ensures cleanupResult(c).None? ==>
              Run(EzApp([], None, Some(c)), signal, [], handle, appHandle, cleanupResult) == Finished(signal, CleanedUp)
  {
  }
}
