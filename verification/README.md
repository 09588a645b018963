# ezapp lifecycle decisions in Dafny

This project models the pure decisions inside pgvanniekerk/ezapp. ezapp is a Go
helper that starts a set of "runnables" in goroutines. It stops them on SIGINT or
SIGTERM or when one of them fails, then runs a cleanup function and exits.

The repository has four divergent orchestrators. Each gets its own module and is
modelled as a total function from abstract inputs to an outcome:

- `EzappRun` for pkg/ezapp/run.go. Its inputs are a trace of signals and runnable
  returns, the point in it where the main goroutine reaches its `select`, and
  Go's random pick among the cases ready there. Its outcome is an exit code, a
  shutdown reason, and whether the builder and the cleanup were called.
- `RootEzapp` for ezapp.go. Its outcome is the fatal-message table of `Run`.
  EZAPP_SHUTDOWN_TIMEOUT is read twice there, before the initializer and after
  the runners, so it is two inputs.
- `InternalApp` for internal/app/app.go. Its inputs are the errgroup results, the
  completion order and the `select` case taken.
- `EzappEzApp` for pkg/ezapp/ezapp.go. Each runnable has a behaviour: it returns,
  it returns only on cancellation, or it never returns. The model covers the
  per-goroutine error chain and the cleanup after the wait.

Around the orchestrators sit these modules:

- the environment parsing:
  - `Strconv`: Go's `strconv.Atoi` as a predicate, plus `Itoa`;
  - `LoadLogger`, `StartupCtx`, `ShutdownCtx`, and `EzappRun.GetCleanupTimeout`;
- the functional-option records:
  - `EzappApp`, `EzappServiceSet`, `EzappOptions`, `BuildOption`;
  - `WireOptions`, `WireApp` and `InternalAppNew`;
  - the `Link` option-list combinators;
- two example cores: `DbConf`, the connection string, and `MockDb`, a connected/disconnected state machine.

`Base` holds the shared vocabulary:

- `Option` and `Result`;
- a Go `error` with `context.Canceled` and `%w` wrapping, so that `errors.Is` can be stated;
- Go slices, which tell nil from empty (`Slice`);
- the left-to-right application of functional options (`ApplyAll`).

`Slog` is the part of log/slog the wiring relies on: `With` appends attributes.

Durations are whole seconds. Handlers, channels, loggers and cleanup functions are
opaque handles; where a decision depends on what one of them returns, that
behaviour is a function parameter. Environment variables are string parameters,
with "" for unset.

## Model

| member | source | states |
|---|---|---|
| Strconv.Atoi | internal/config/shutdownctx.go:26-29 | `strconv.Atoi` succeeds exactly on an optional sign followed by one or more decimal digits whose value fits in 64 bits, and returns that value |
| Strconv.Itoa | examples/exampleapp/internal/config/config.go:71 | the decimal rendering is a numeral denoting n, starts with '-' exactly when n is negative, and has no other characters |
| Strconv.AtoiItoa | examples/exampleapp/internal/config/config.go:71 | parsing the rendering of any 64-bit integer gives the integer back |
| EzappRun.GetCleanupTimeout | pkg/ezapp/run.go:23-36 | 15 s when EZAPP_TERM_TIMEOUT is unset or not an integer; exactly n s for any Atoi-valid n, zero and negatives included |
| EzappRun.WaitForShutdown | pkg/ezapp/run.go:92-114 | exit code 1 exactly for a runnable error and 0 for a signal or all-done; the three reason texts; the all-done reason is the only one equal to "All runnables completed successfully"; only the signal case cancels |
| EzappRun.RunCleanup | pkg/ezapp/run.go:117-129 | the cleanup runs with the EZAPP_TERM_TIMEOUT timeout; its failure gives (1, err), its success (0, nil) |
| EzappRun.FirstSignal | pkg/ezapp/run.go:166-167 | the signal waiting in the one-slot `sigChan` is the first one that arrived; none exactly when no signal arrived |
| EzappRun.FirstError | pkg/ezapp/run.go:59-77 | the error at the head of `errChan` is the first runnable error; none exactly when no runnable returned an error |
| EzappRun.Ready | pkg/ezapp/run.go:82-111 | the cases ready when the select is reached: the waiting signal, the head of `errChan`, and `done` once every runnable has returned; nothing else |
| EzappRun.FirstTrigger | pkg/ezapp/run.go:92-111 | when cases are ready as the main goroutine reaches the select, the case taken is one of them and nothing after that point matters; otherwise it is the first later event that is a signal, a runnable error or the n-th return; with no runnables `done` is closed at once; no trigger exactly when nothing was ready and no later event fires |
| EzappRun.Run | pkg/ezapp/run.go:133-199 | a config failure exits 1 without calling the builder; a builder failure exits 1; zero runnables exit 0 with "No runnables to execute" and no cleanup; the cleanup is called only if the app has one |
| EzappRun.ExitsIffAllReturn | pkg/ezapp/run.go:173-180 | a started run exits exactly when every runnable returns, because nothing forces shutdown |
| EzappRun.ExitCodeRule | pkg/ezapp/run.go:173-192 | the exit code is 1 exactly when the select took a runnable error or the cleanup failed; the reason is that of the case taken; the cleanup is called exactly when one is set |
| EzappRun.ExitOneHasCause | pkg/ezapp/run.go:173-192 | exit code 1 means some runnable returned an error or the cleanup failed |
| EzappRun.DoneCanMaskError | pkg/ezapp/run.go:96-111 | when an error is queued and every runnable has returned before the select is reached, one pick exits 1 with "Runnable error: ..." and another exits 0 with "All runnables completed successfully" |
| EzappRun.BlockedSelectSeesErrors | pkg/ezapp/run.go:67-86 | when the select is waiting before anything happens and takes `done`, no runnable returned an error |
| EzappRun.CleanupFailureOverrides | pkg/ezapp/run.go:186-192 | a failing cleanup sets the exit code to 1 whatever the trigger |
| EzappRun.CleanupSuccessKeepsCode | pkg/ezapp/run.go:186-192 | a successful cleanup leaves the trigger's exit code unchanged |
| EzappRun.SignalFirstExitsZero | pkg/ezapp/run.go:96-101 | a signal that comes first, with the select reached before or just after it, ends the run with code 0 and "Received signal ..." whatever the pick, once the runnables have returned |
| LoadLogger.ToUpper | internal/config/loadlogger.go:15 | upper-casing keeps the length, maps each rune on its own, upper-cases every ASCII letter and sends U+0131 and U+017F to 'I' and 'S' |
| LoadLogger.SelectLevel | internal/config/loadlogger.go:11-33 | DEBUG, WARN or ERROR exactly when the upper-cased value is that word; INFO for everything else, "" included; never an error |
| LoadLogger.ToUpperIdempotent | internal/config/loadlogger.go:15 | upper-casing twice is upper-casing once |
| LoadLogger.SelectLevelIgnoresCase | internal/config/loadlogger.go:15-21 | two values equal up to case select the same level |
| LoadLogger.SelectLevelOfUpper | internal/config/loadlogger.go:15-21 | a value and its upper-cased copy select the same level |
| ShutdownCtx.ShutdownCtx | internal/config/shutdownctx.go:17-36 | unset gives 15 s; a set value succeeds exactly when Atoi accepts it and then gives exactly its seconds; a failure is the "invalid EZAPP_SHUTDOWN_TIMEOUT value" error |
| ShutdownCtx.ErrorQuotesValue | internal/config/shutdownctx.go:28 | the error text contains the offending value |
| StartupCtx.StartupCtx | internal/config/startupctx.go:18-52 | success exactly when both values are unset or Atoi-valid; a bad startup value is reported even when the shutdown value is bad too; on success the deadline and the stored duration are the two values' seconds, 15 for unset |
| StartupCtx.GetShutdownTimeout | internal/config/startupctx.go:56-61 | the stored duration when the value is a duration, 15 s otherwise |
| StartupCtx.StoredShutdownReadBack | internal/config/startupctx.go:45-61 | the duration read back from a startup context is the one EZAPP_SHUTDOWN_TIMEOUT asked for |
| StartupCtx.BackgroundReadsDefault | internal/config/startupctx.go:56-61 | a context without the value, or with a value of another type, reads as 15 s |
| EzappApp.ConstructEmpty | pkg/ezapp/appoptions.go:23-28 | no options give no runnables and a nil cleanup |
| EzappApp.WithRunnablesAppends | pkg/ezapp/appoptions.go:9-13 | the given runnables follow the existing ones in order; the length adds up; the cleanup is untouched |
| EzappApp.WithCleanupSetsOnlyCleanup | pkg/ezapp/appoptions.go:16-20 | sets the cleanup and leaves the runnables unchanged |
| EzappApp.WithCleanupLastWins | pkg/ezapp/appoptions.go:16-20 | of two cleanups the later one wins |
| EzappApp.WithRunnablesAccumulate | pkg/ezapp/appoptions.go:9-27 | repeated WithRunnables calls accumulate in call order; the count is the sum of the argument counts |
| EzappServiceSet.WithCleanupFunc | pkg/ezapp/serviceset.go:30-34 | stores the cleanup verbatim, nil included, and touches nothing else; it is idempotent |
| EzappServiceSet.WithServices | pkg/ezapp/serviceset.go:37-41 | appends in order, keeps a non-nil list non-nil, leaves the cleanup alone; no arguments leave the set unchanged |
| EzappServiceSet.NewServiceSetEmpty | pkg/ezapp/serviceset.go:8-18 | no options give an empty non-nil service list and a nil cleanup |
| EzappServiceSet.WithServicesAccumulate | pkg/ezapp/serviceset.go:37-41 | several WithServices calls accumulate in call order, and the list stays non-nil |
| EzappOptions.DefaultOptions | pkg/ezapp/options.go:23-29 | nil handler, nil cleanup, empty prefix |
| EzappOptions.WithErrorHandler | pkg/ezapp/options.go:49-53 | sets only the handler; idempotent |
| EzappOptions.WithCleanupFunc | pkg/ezapp/options.go:75-79 | sets only the cleanup; idempotent |
| EzappOptions.WithConfigPrefix | pkg/ezapp/options.go:102-106 | stores the prefix verbatim and sets only it; idempotent |
| EzappOptions.LastSetterWins | pkg/ezapp/options.go:49-106 | for each field a later setter overrides an earlier one |
| EzappOptions.SettersOfDifferentFieldsCommute | pkg/ezapp/options.go:49-106 | setters of different fields commute |
| EzappOptions.OneSetterOverDefaults | pkg/ezapp/options.go:23-53 | one setter over the defaults changes exactly its own field |
| BuildOption.WithoutOptions | pkg/buildoption/buildoption.go:38-45 | DefaultErrorHandler, a 15 s startup timeout, an empty prefix, no shutdown signal |
| BuildOption.WithErrorHandler | pkg/buildoption/buildoption.go:110-114 | changes only the error handler; idempotent |
| BuildOption.WithStartupTimeout | pkg/buildoption/buildoption.go:117-121 | changes only the startup timeout; idempotent |
| BuildOption.WithEnvVarPrefix | pkg/buildoption/buildoption.go:124-128 | changes only the prefix; idempotent |
| BuildOption.WithShutdownSignal | pkg/buildoption/buildoption.go:131-135 | changes only the shutdown signal; idempotent |
| BuildOption.GetShutdownSignal | pkg/buildoption/buildoption.go:80-86 | the stored channel when one is set, the default channel otherwise |
| BuildOption.CallErrorHandler | pkg/buildoption/buildoption.go:138-140 | DefaultErrorHandler panics with its argument; any other handler returns what it computes |
| BuildOption.NoOptionsIsWithoutOptions | pkg/buildoption/buildoption.go:38-62 | WithOptions() with no options equals WithoutOptions field for field |
| BuildOption.DefaultErrorHandlerPanics | pkg/buildoption/buildoption.go:138-140 | the default handler never returns normally, and it is the default |
| BuildOption.SetThenGet | pkg/buildoption/buildoption.go:65-77 | each getter returns what its setter stored; unset fields keep their defaults |
| BuildOption.ShutdownSignalFallback | pkg/buildoption/buildoption.go:80-86 | with no signal, or a nil one, the default channel is returned |
| BuildOption.LastSetterWins | pkg/buildoption/buildoption.go:57-59 | options apply left to right, so for each of the four fields the later of two setters wins |
| EzappEzApp.Chain | pkg/ezapp/ezapp.go:100-115 | nil or Canceled errors reach no handler; otherwise HandleError runs first, the app handler only if HandleError keeps an error and one is set, and cancel only if the app handler keeps it too |
| EzappEzApp.Run | pkg/ezapp/ezapp.go:68-122 | returns exactly when no runnable blocks forever and every runnable that waits for cancellation sees it; cleanup then runs once: a nil one panics, a failing one panics with its error |
| EzappEzApp.CanceledCallsNoHandler | pkg/ezapp/ezapp.go:100-101 | nil, Canceled and a wrapped Canceled call no handler and do not cancel |
| EzappEzApp.NoAppHandlerOnlySignalCancels | pkg/ezapp/ezapp.go:85-113 | without an app-level handler, the context is cancelled exactly when a signal arrives |
| EzappEzApp.WaitingRunnableHangsWithoutSignal | pkg/ezapp/ezapp.go:85-120 | with no handler and no signal, a runnable waiting for cancellation keeps Run, and so the cleanup, from finishing |
| EzappEzApp.EscalatedErrorShutsDown | pkg/ezapp/ezapp.go:104-120 | an error that survives both handlers cancels, so the waiting runnables return and cleanup runs |
| EzappEzApp.NoRunnablesStillCleansUp | pkg/ezapp/ezapp.go:68-76 | with no runnables the cleanup still runs; a nil cleanup panics |
| InternalApp.New | internal/app/app.go:14-34 | the app runs exactly the runnables it was given |
| InternalApp.GoroutineResult | internal/app/app.go:55-70 | a nil run error contributes nil; an error contributes what HandleError returns |
| InternalApp.FirstError | internal/app/app.go:74-79 | g.Wait() gives nil exactly when every goroutine result is nil, and otherwise the first non-nil result in completion order |
| InternalApp.Run | internal/app/app.go:44-104 | returns only after every runnable has returned; nil when the group error is nil or Canceled, the group error otherwise; the stop context is cancelled exactly on SIGTERM or a surviving error |
| InternalApp.ReturnedErrorIsFirst | internal/app/app.go:55-100 | a returned error came from a failing runnable whose HandleError kept it, is not Canceled, and every earlier finisher contributed nil |
| InternalApp.AllHandledReturnsNil | internal/app/app.go:57-69 | if every error is nil or handled, Run returns nil |
| InternalApp.UnhandledErrorCancels | internal/app/app.go:62-67 | an error that survives HandleError cancels the stop context |
| InternalApp.CanceledFirstMasksLaterError | internal/app/app.go:96-103 | a Canceled result that finishes first masks a later real error, and Run reports success |
| RootEzapp.ApplyFrom | ezapp.go:145-149 | either every option ran and the record is their left-to-right result, or the first failing option ended the loop and the zero AppCtx comes back with that option's error |
| RootEzapp.Construct | ezapp.go:138-152 | a successful Construct called every option; a failed one returns the zero AppCtx |
| RootEzapp.ConstructEmpty | ezapp.go:140-143 | no options give an empty non-nil runner list and a nil cleanup |
| RootEzapp.AbortOnError | ezapp.go:145-149 | once an option fails, no later option is called, and the zero AppCtx and that error are returned |
| RootEzapp.SettersTouchTheirOwnField | ezapp.go:84-119 | WithRunners appends in order and keeps the cleanup; WithCleanup replaces only the cleanup; neither fails |
| RootEzapp.Run | ezapp.go:189-250 | config, startup-context and initializer failures are fatal with their messages; "failed to create shutdown context" happens only with a cleanup set and a value of EZAPP_SHUTDOWN_TIMEOUT at cleanup time that ShutdownCtx rejects, after the runners and before the cleanup; the cleanup is called only if it is set |
| RootEzapp.ShutdownNeverFailsAfterStartup | internal/config/startupctx.go:35-49 | ShutdownCtx cannot fail on a value StartupCtx accepted, and gives the duration the startup context stores |
| RootEzapp.ShutdownFatalNeedsChangedValue | ezapp.go:201-230 | with EZAPP_SHUTDOWN_TIMEOUT unchanged between the startup check and the cleanup, "failed to create shutdown context" never happens |
| RootEzapp.EarlyFailureStartsNothing | ezapp.go:195-217 | a failure before the runners start is fatal, and neither runners nor cleanup run |
| RootEzapp.AfterRunTable | ezapp.go:220-249 | with a cleanup set, a rejected shutdown timeout is fatal before the cleanup and outranks an app error; otherwise the cleanup runs exactly when set, an app error outranks a cleanup error, a cleanup error after app success is fatal, and the run succeeds in the remaining case |
| RootEzapp.HangsIffRunnersHang | ezapp.go:220-221 | Run returns exactly when every runner has returned |
| InternalAppNew.FirstFailure | internal/app/new.go:41-47 | the first runnable whose embed check fails; all before it pass |
| InternalAppNew.New | internal/app/new.go:22-54 | success exactly when every check passes, and then the fields are copied and the logger carries the attributes once each in order; otherwise no app, the first failure's error, and only the runnables before it configured |
| InternalAppNew.StopsAtFirstFailure | internal/app/new.go:41-47 | runnables after the first failing one are neither checked nor configured |
| InternalAppNew.NoAttrsKeepsLogger | internal/app/new.go:25-31 | with no attributes the logger passes through unchanged |
| Slog.WithAll | internal/app/new.go:28-30 | adding attributes one by one appends them in order and keeps the handler |
| WireOptions.WithLogAttrs | pkg/wire/withlogattrs.go:8-12 | replaces the attributes, changes nothing else, is idempotent |
| WireOptions.WithAppShutdownTimeout | pkg/wire/withappshutdowntimeout.go:8-12 | sets the shutdown timeout, keeps the startup timeout and the other fields; idempotent |
| WireOptions.WithAppStartupTimeout | pkg/wire/withappstartuptimeout.go:8-12 | sets the startup timeout, keeps the shutdown timeout and the other fields; idempotent |
| WireOptions.WithShutdownSignal | pkg/wire/withshutdownsignal.go:4-8 | sets the signal channel only; idempotent |
| WireOptions.WithLogger | pkg/wire/withlogger.go:8-12 | sets the logger only; idempotent |
| WireOptions.WithCriticalErrHandler | pkg/wire/withcriticalerrorhandler.go:14-18 | sets the critical-error handler only; idempotent |
| WireOptions.LogAttrsLastWins | pkg/wire/withlogattrs.go:8-12 | a second WithLogAttrs discards the earlier attributes |
| WireOptions.TimeoutsLastWins | pkg/wire/withappshutdowntimeout.go:8-12 | for each timeout the last setter wins |
| WireOptions.ShutdownSignalLastWins | pkg/wire/withshutdownsignal.go:4-8 | the last signal channel wins |
| WireOptions.LoggerLastWins | pkg/wire/withlogger.go:8-12 | the last logger wins |
| WireOptions.CriticalErrHandlerLastWins | pkg/wire/withcriticalerrorhandler.go:14-18 | the last handler wins and the earlier one is no longer stored |
| WireOptions.TimeoutSettersCommute | pkg/wire/withappstartuptimeout.go:8-12 | the two timeout setters commute |
| WireOptions.EmptyLogAttrs | pkg/wire/withlogattrs.go:8-12 | no arguments empty the attribute list |
| WireApp.Runnables | pkg/wire/runnables.go:31-35 | the thunk returns exactly the given runnables, same length and order |
| WireApp.AppAsWritten | pkg/wire/app.go:35-80 | a nil thunk is the exact "runnablesFunc cannot be nil" error; a defaults failure is wrapped "failed to retrieve default options for app: "; success exactly when every runnable passes app.New's check, otherwise an error wrapped "failed to create app: "; the app takes the timeout, runnables and signal from the options after the user's setters, and a logger carrying the options' attributes twice |
| WireApp.AsWrittenDiffersOnlyInLogger | pkg/wire/app.go:53-71 | the code as written and the corrected App return the same error on every input, and their apps differ only in the logger's attributes |
| WireApp.LogAttrsAppliedTwice | pkg/wire/app.go:54-71 | as written, the app's logger carries the options' attributes twice |
| WireApp.App | pkg/wire/app.go:35-80 | the same errors; success exactly when every runnable passes app.New's check, otherwise an error wrapped "failed to create app: "; the app takes the timeout, runnables, signal and logger from the options after the user's setters |
| WireApp.AppAttrsOnce | internal/app/params.go:44-48 | with the correction, each attribute reaches the app's logger as many times as it was given |
| WireApp.NilThunkBeforeDefaults | pkg/wire/app.go:38-46 | a nil thunk is rejected whatever the defaults are |
| WireApp.OptionsAfterDefaults | pkg/wire/app.go:43-51 | user options apply after the defaults, left to right |
| Link.Named | pkg/link/named.go:6-10 | appends exactly one Name entry after the existing ones |
| Link.Grouped | pkg/link/grouped.go:6-10 | appends exactly one Group entry after the existing ones |
| Link.Impl | pkg/link/impl.go:6-11 | the inner option runs first and As(T) is appended last |
| Link.AsCount | pkg/link/impl.go:8-9 | Named and Grouped add no As entry; Impl adds exactly one more than its inner option |
| MockDb.NewMockDB | examples/exampleapp/db.go:15-19 | starts disconnected |
| MockDb.Connect | examples/exampleapp/db.go:22-30 | the timer connects with no error; cancellation returns the context error and keeps the state |
| MockDb.Close | examples/exampleapp/db.go:33-39 | fails with "database not connected" exactly when disconnected, keeping the state; otherwise disconnects |
| MockDb.Query | examples/exampleapp/db.go:42-53 | succeeds with the time exactly when connected and the timer fires; connected with the context ended, it fails with the context's error; disconnected, it fails with "database not connected" |
| MockDb.ReplayFinalState | examples/exampleapp/db.go:22-39 | after any sequence of calls, the database is connected exactly when the last connect-or-close was a connect whose timer fired; queries never change the state |
| MockDb.FreshRefusesQueries | examples/exampleapp/db.go:15-53 | a new database refuses queries until it connects |
| DbConf.GetConnectionString | examples/exampleapp/internal/config/config.go:69-76 | the length is the sum of the text fields' lengths plus len(Itoa(port)) plus the 44 characters of the fixed keys and separators |
| DbConf.ConnectionStringIsJoin | examples/exampleapp/internal/config/config.go:69-76 | the string is the six key=value pairs in fixed order, joined by single spaces |
| DbConf.ParseRoundTrip | examples/exampleapp/internal/config/config.go:69-76 | when no field contains a space, parsing the string gives the configuration back |
| DbConf.NotInjectiveWithSpaces | examples/exampleapp/internal/config/config.go:69-76 | values are inserted verbatim, so two configurations with spaces in their values can give the same string |

## Left out

- Goroutines, channels, `sync.WaitGroup`, errgroup and `signal.Notify`/`Stop` are not modelled. Each orchestrator takes their observable effect as an input: an event trace, a completion order plus the `select` case, or a per-runnable behaviour. `startRunnables` (pkg/ezapp/run.go:54-89) and `DefaultShutdownSignal` (pkg/buildoption/buildoption.go:89-104) are not modelled for the same reason. The default channel is a parameter of `BuildOption.GetShutdownSignal`.
- `os.Exit`, `fmt.Print*`, `logger.Fatal` and logging are outcome values or are dropped. The text printed is kept only where the source branches on it: the shutdown reason in run.go.
- Timeouts on the wall clock are out: `context.WithTimeout` deadlines, `time.After` in `MockDB`, and `time.Now`. A context is its timeout in seconds. The time `Query` returns is an input.
- LoadLogger.ToUpper: does not upper-case non-ASCII letters. 'é' stays 'é' where `strings.ToUpper` gives 'É'. Only ASCII words select a level, and no rune outside ASCII other than U+0131 and U+017F upper-cases into ASCII, so `SelectLevel` is unaffected.
- EzappRun.GetCleanupTimeout: does not model the wrap-around of `time.Duration(n) * time.Second` on int64 nanoseconds for |n| above 9223372036, because durations are whole seconds. The same holds for StartupCtx.StartupCtx and ShutdownCtx.ShutdownCtx.
- Reflection-based dependency injection is out. That covers internal/container, the root link package, and the embed check and logger injection of internal/app. The embed check is a function parameter of `InternalAppNew.New`. Setting a runnable's logger is recorded only as the list of runnables it reached.
- Configuration decoding by go-env and envconfig is an input: a config error in `EzappRun.Run` and `RootEzapp.Run`, and the defaults `Result` in `WireApp.App`. That covers `validateAndLoadConfig`, `LoadVar` and pkg/wire/defaultoptions.go.
- `RootEzapp.Construct` starts from `make([]app.Runner, 0, 8)`; the capacity 8 is not modelled, only the empty non-nil list.
- pkg/ezapp/runnable.go declares no `HandleError`, although pkg/ezapp/ezapp.go:104 calls it. `EzappEzApp` models the call as written, with the runnables' handling as a parameter.
- ezapp.go passes `[]app.Runner` to an `app.New` that takes runnables and a logger. `RootEzapp` treats a runner as an `InternalApp.Runnable`.
- BuildOption.GetErrorHandler, BuildOption.GetStartupTimeout and BuildOption.GetEnvVarPrefix carry no contract of their own: each returns one field. `BuildOption.SetThenGet` states what they read back.
- WireOptions.WithLogger: a nil logger is not representable; `Slog.Logger` is always a logger. With a nil logger, Go's `With` in pkg/wire/app.go:58 would panic.
- Link.Impl: a nil inner option is not representable. `Impl` calls the option unconditionally, so Go would panic on nil.
- EzappEzApp.Run: the signal is a single yes/no for the whole run, without timing relative to each runnable's return. A runnable that returns on its own does so whether or not the context is cancelled.
- InternalApp.Run: the `select` case is an unconstrained input; nothing ties it to which events happened, so taking `SigTerm` stands for a termination signal having arrived. Every branch waits for the group, so the returned error does not depend on the case taken. Whether the stop context is cancelled does depend on it: only the `sigTerm` case calls `stopCtxCancel` (internal/app/app.go:84-86).
- The sql.DB example plumbing, the infinite service loop, and the declaration-only files have no decisions to model.

## Findings

| source | as written | input that shows it | evidently intended | confidence | as-written member | corrected member |
|---|---|---|---|---|---|---|
| pkg/wire/app.go:54-71 | `App` adds every `logAttrs` entry to the options' logger and then also passes the same list in `Params.LogAttrs`; `app.New` (internal/app/new.go:26-31) adds them to that logger again | one attribute `a`, a logger without attributes: the app's logger carries `[a, a]` | each attribute added once; the `Params.LogAttrs` documentation (internal/app/params.go:44-48) gives that job to the `App` that `app.New` creates | medium, not executed | WireApp.AppAsWritten | WireApp.App |
