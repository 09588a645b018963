/** The top-level `ezapp` package (ezapp.go): the `AppCtx` builder with its
    fallible functional options, and the outcome table of `Run`, which loads
    configuration, creates the startup context, calls the initializer, runs
    the runners through internal/app, then runs the cleanup under a shutdown
    context.  `logger.Fatal` ends the process; it is an outcome here. */
module RootEzapp {
  import opened Base
  import StartupCtx
  import ShutdownCtx
  import InternalApp

  /** A `func(shutdownCtx context.Context) error` cleanup value. */
  datatype CleanupFunc = CleanupFunc(id: nat)

  /** The runner list keeps Go's nil/empty distinction: `Construct` starts
      from an empty, non-nil slice and returns the zero `AppCtx{}` (nil list)
      on error. */
  datatype AppCtx = AppCtx(runnerList: Slice<InternalApp.Runnable>, cleanupFunc: Option<CleanupFunc>)

  const ZeroAppCtx := AppCtx(Nil, None)

  /** An option may fail; a failure aborts `Construct`. */
  type AppOption = AppCtx -> Result<AppCtx>

  /** `WithRunners(runners...)`: appends, never fails. */
  function WithRunners(runners: seq<InternalApp.Runnable>): AppOption {
    (a: AppCtx) => Ok(a.(runnerList := Append(a.runnerList, runners)))
  }

  /** `WithCleanup(f)`: replaces the cleanup, nil included; never fails. */
  function WithCleanup(c: Option<CleanupFunc>): AppOption {
    (a: AppCtx) => Ok(a.(cleanupFunc := c))
  }

  /** What `Construct` returns, with the number of options it called. */
  datatype Constructed = Constructed(appCtx: AppCtx, err: Option<Error>, called: nat)

  /** The loop of `Construct` from `a` on. */
  function ApplyFrom(a: AppCtx, opts: seq<AppOption>): (r: Constructed)
    ensures r.called <= |opts|
    ensures r.err.None? ==> r.called == |opts|
    ensures r.err.Some? ==> r.appCtx == ZeroAppCtx && 1 <= r.called
    ensures r.err.Some? ==> opts[r.called - 1](Applied(a, opts[..r.called - 1])).Err?
    ensures r.err.Some? ==> r.err.value == opts[r.called - 1](Applied(a, opts[..r.called - 1])).error
    ensures r.err.None? ==> r.appCtx == Applied(a, opts)
    decreases |opts|
  {
    if opts == [] then Constructed(a, None, 0)
    else
      match opts[0](a)
      case Err(e) =>
        assert opts[..0] == [];
        Constructed(ZeroAppCtx, Some(e), 1)
      case Ok(a') =>
        var r := ApplyFrom(a', opts[1..]);
        if r.err.Some? then
          assert opts[1..][..r.called - 1] == opts[1..r.called];
          AppliedCons(a, opts, r.called);
          Constructed(r.appCtx, r.err, r.called + 1)
        else
          assert opts[..|opts|] == opts;
          AppliedCons(a, opts, |opts|);
          assert opts[1..][..|opts| - 1] == opts[1..];
          Constructed(r.appCtx, r.err, r.called + 1)
  }

  /** The record after the options in `opts`, assuming none failed; a
      failure leaves the record where it was. */
  function Applied(a: AppCtx, opts: seq<AppOption>): AppCtx
    decreases |opts|
  {
    if opts == [] then a
    else match opts[0](a)
      case Ok(a') => Applied(a', opts[1..])
      case Err(_) => a
  }

  lemma AppliedCons(a: AppCtx, opts: seq<AppOption>, k: nat)
    requires 1 <= k <= |opts| && opts[0](a).Ok?
    ensures Applied(a, opts[..k]) == Applied(opts[0](a).value, opts[1..k])
  {
    assert opts[..k][0] == opts[0];
    assert opts[..k][1..] == opts[1..k];
  }

  /** `Construct(options...)`. */
  function Construct(opts: seq<AppOption>): (r: Constructed)
    ensures r.err.None? ==> r.called == |opts|
    ensures r.err.Some? ==> r.appCtx == ZeroAppCtx
  {
    ApplyFrom(AppCtx(Make([]), None), opts)
  }

  /** No options: an empty (non-nil) runner list, a nil cleanup, no error. */
  lemma ConstructEmpty()
    ensures Construct([]) == Constructed(AppCtx(Make([]), None), None, 0)
    ensures Construct([]).appCtx.runnerList.Items() == []
  {
  }

  /** Once an option fails, `Construct` returns the zero `AppCtx` and that
      error, and calls none of the options after it. */
  lemma {:induction false} AbortOnError(a: AppCtx, before: seq<AppOption>, bad: AppOption, after: seq<AppOption>)
    requires ApplyFrom(a, before).err.None?
    requires bad(Applied(a, before)).Err?
    ensures ApplyFrom(a, before + [bad] + after)
            == Constructed(ZeroAppCtx, Some(bad(Applied(a, before)).error), |before| + 1)
    decreases |before|
  {
    var opts := before + [bad] + after;
    if before == [] {
      assert opts[0] == bad;
    } else {
      assert opts[0] == before[0];
      assert opts[1..] == before[1..] + [bad] + after;
      var a' := before[0](a).value;
      AbortOnError(a', before[1..], bad, after);
    }
  }

  /** `WithRunners` appends after the runners already present, in order, and
      leaves the cleanup alone; `WithCleanup` replaces only the cleanup. */
  lemma SettersTouchTheirOwnField(a: AppCtx, rs: seq<InternalApp.Runnable>, c: Option<CleanupFunc>)
    ensures WithRunners(rs)(a).Ok? && WithRunners(rs)(a).value.runnerList.Items() == a.runnerList.Items() + rs
    ensures WithRunners(rs)(a).value.cleanupFunc == a.cleanupFunc
    ensures WithCleanup(c)(a) == Ok(AppCtx(a.runnerList, c))
  {
  }

  /** How the process ends.  `runnersStarted` says whether `application.Run`
      was called, `cleanupCalled` whether the cleanup function was. */
  datatype Outcome =
    | Fatal(message: string, err: Error, runnersStarted: bool, cleanupCalled: bool)
    | Succeeded(cleanupCalled: bool)
    | Hangs

  /** `Run(initializer)`.  `configErr` is the result of loading the
      configuration, `startupEnv`/`shutdownEnv` the two timeout variables as
      `StartupCtx` reads them, `cleanupEnv` the value of EZAPP_SHUTDOWN_TIMEOUT
      when `ShutdownCtx` reads it again after the runners have returned (the
      initializer and the runners may have changed the environment in between),
      `initialized` what the initializer returns, `ex` and `handle` how the
      runners behave, and `cleanupResult` what the cleanup function returns
      for a shutdown context. */
  function Run(configErr: Option<Error>, startupEnv: string, shutdownEnv: string, cleanupEnv: string,
               initialized: Result<AppCtx>, ex: InternalApp.Execution, handle: InternalApp.Handling,
               cleanupResult: (CleanupFunc, ShutdownCtx.Context) -> Option<Error>): (o: Outcome)
    requires initialized.Ok? ==> InternalApp.IsExecution(InternalApp.New(initialized.value.runnerList.Items()), ex)
    ensures configErr.Some? ==> o == Fatal("failed to load configuration", configErr.value, false, false)
    ensures configErr.None? && StartupCtx.StartupCtx(startupEnv, shutdownEnv).Err? ==>
              o == Fatal("failed to create startup context", StartupCtx.StartupCtx(startupEnv, shutdownEnv).error, false, false)
    ensures configErr.None? && StartupCtx.StartupCtx(startupEnv, shutdownEnv).Ok? && initialized.Err? ==>
              o == Fatal("initialization failed", initialized.error, false, false)
    ensures o.Fatal? && o.message == "failed to create shutdown context" ==>
              && initialized.Ok? && initialized.value.cleanupFunc.Some?
              && ShutdownCtx.ShutdownCtx(cleanupEnv).Err?
              && o.err == ShutdownCtx.ShutdownCtx(cleanupEnv).error
              && o.runnersStarted && !o.cleanupCalled
    ensures !o.Hangs? && o.cleanupCalled ==> initialized.Ok? && initialized.value.cleanupFunc.Some?
  {
    if configErr.Some? then Fatal("failed to load configuration", configErr.value, false, false)
    else
      var startup := StartupCtx.StartupCtx(startupEnv, shutdownEnv);
      if startup.Err? then Fatal("failed to create startup context", startup.error, false, false)
      else if initialized.Err? then Fatal("initialization failed", initialized.error, false, false)
      else
        var appCtx := initialized.value;
        match InternalApp.Run(InternalApp.New(appCtx.runnerList.Items()), ex, handle)
        case Blocked => Hangs
        case Returned(appErr, _) =>
          match appCtx.cleanupFunc
          case None =>
            if appErr.Some? then Fatal("application failed", appErr.value, true, false)
            else Succeeded(false)
          case Some(c) =>
            var shutdown := ShutdownCtx.ShutdownCtx(cleanupEnv);
            if shutdown.Err? then Fatal("failed to create shutdown context", shutdown.error, true, false)
            else
              var cleanupErr := cleanupResult(c, shutdown.value);
              if cleanupErr.Some? && appErr.None? then Fatal("application cleanup failed", cleanupErr.value, true, true)
              else if appErr.Some? then Fatal("application failed", appErr.value, true, true)
              else Succeeded(true)
  }

  /** `StartupCtx` already parses EZAPP_SHUTDOWN_TIMEOUT, so once it has
      succeeded `ShutdownCtx` cannot fail on the same value, and agrees with
      the duration the startup context stores. */
  lemma ShutdownNeverFailsAfterStartup(startupEnv: string, shutdownEnv: string)
    requires StartupCtx.StartupCtx(startupEnv, shutdownEnv).Ok?
    ensures ShutdownCtx.ShutdownCtx(shutdownEnv).Ok?
    ensures ShutdownCtx.ShutdownCtx(shutdownEnv).value.timeoutSeconds
            == StartupCtx.GetShutdownTimeout(StartupCtx.StartupCtx(startupEnv, shutdownEnv).value)
  {
  }

  /** "failed to create shutdown context" is reachable only when the value of
      EZAPP_SHUTDOWN_TIMEOUT changed between the startup check and the cleanup:
      with the environment left alone the branch is dead. */
  lemma ShutdownFatalNeedsChangedValue(configErr: Option<Error>, startupEnv: string, shutdownEnv: string,
                                       initialized: Result<AppCtx>, ex: InternalApp.Execution, handle: InternalApp.Handling,
                                       cleanupResult: (CleanupFunc, ShutdownCtx.Context) -> Option<Error>)
    requires initialized.Ok? ==> InternalApp.IsExecution(InternalApp.New(initialized.value.runnerList.Items()), ex)
    ensures var o := Run(configErr, startupEnv, shutdownEnv, shutdownEnv, initialized, ex, handle, cleanupResult);
            !(o.Fatal? && o.message == "failed to create shutdown context")
  {
    var o := Run(configErr, startupEnv, shutdownEnv, shutdownEnv, initialized, ex, handle, cleanupResult);
    if o.Fatal? && o.message == "failed to create shutdown context" {
      ShutdownNeverFailsAfterStartup(startupEnv, shutdownEnv);
    }
  }

  /** The stages before the runners: a failure is fatal and no runner starts. */
  lemma EarlyFailureStartsNothing(configErr: Option<Error>, startupEnv: string, shutdownEnv: string, cleanupEnv: string,
                                  initialized: Result<AppCtx>, ex: InternalApp.Execution, handle: InternalApp.Handling,
                                  cleanupResult: (CleanupFunc, ShutdownCtx.Context) -> Option<Error>)
    requires initialized.Ok? ==> InternalApp.IsExecution(InternalApp.New(initialized.value.runnerList.Items()), ex)
    requires configErr.Some? || StartupCtx.StartupCtx(startupEnv, shutdownEnv).Err? || initialized.Err?
    ensures var o := Run(configErr, startupEnv, shutdownEnv, cleanupEnv, initialized, ex, handle, cleanupResult);
            o.Fatal? && !o.runnersStarted && !o.cleanupCalled
  {
  }

  /** Once the runners have returned: with a cleanup set, a shutdown context
      that cannot be created is fatal before the cleanup and before the app
      error; otherwise the cleanup is called exactly when one is set, an app
      error outranks a cleanup error, a cleanup error after app success is
      fatal on its own, and in the remaining case the run succeeds. */
  lemma AfterRunTable(startupEnv: string, shutdownEnv: string, cleanupEnv: string, appCtx: AppCtx,
                      ex: InternalApp.Execution, handle: InternalApp.Handling,
                      cleanupResult: (CleanupFunc, ShutdownCtx.Context) -> Option<Error>)
    requires StartupCtx.StartupCtx(startupEnv, shutdownEnv).Ok?
    requires InternalApp.IsExecution(InternalApp.New(appCtx.runnerList.Items()), ex)
    requires InternalApp.Run(InternalApp.New(appCtx.runnerList.Items()), ex, handle).Returned?
    ensures var o := Run(None, startupEnv, shutdownEnv, cleanupEnv, Ok(appCtx), ex, handle, cleanupResult);
            var appErr := InternalApp.Run(InternalApp.New(appCtx.runnerList.Items()), ex, handle).err;
            var shutdown := ShutdownCtx.ShutdownCtx(cleanupEnv);
            var blocked := appCtx.cleanupFunc.Some? && shutdown.Err?;
            var cleanupErr := if appCtx.cleanupFunc.Some? && shutdown.Ok?
                              then cleanupResult(appCtx.cleanupFunc.value, shutdown.value)
                              else None;
            && !o.Hangs?
            && (blocked ==> o == Fatal("failed to create shutdown context", shutdown.error, true, false))
            && (!blocked ==> (o.cleanupCalled <==> appCtx.cleanupFunc.Some?))
            && (!blocked && appErr.Some? ==> o == Fatal("application failed", appErr.value, true, appCtx.cleanupFunc.Some?))
            && (!blocked && appErr.None? && cleanupErr.Some? ==> o == Fatal("application cleanup failed", cleanupErr.value, true, true))
            && (!blocked && appErr.None? && cleanupErr.None? ==> o == Succeeded(appCtx.cleanupFunc.Some?))
  {
  }

  /** `Run` returns only when every runner has returned. */
  lemma HangsIffRunnersHang(startupEnv: string, shutdownEnv: string, cleanupEnv: string, appCtx: AppCtx,
                            ex: InternalApp.Execution, handle: InternalApp.Handling,
                            cleanupResult: (CleanupFunc, ShutdownCtx.Context) -> Option<Error>)
    requires StartupCtx.StartupCtx(startupEnv, shutdownEnv).Ok?
    requires InternalApp.IsExecution(InternalApp.New(appCtx.runnerList.Items()), ex)
    ensures Run(None, startupEnv, shutdownEnv, cleanupEnv, Ok(appCtx), ex, handle, cleanupResult).Hangs?
            <==> |ex.order| < |appCtx.runnerList.Items()|
  {
  }
}
