/** `App` of pkg/wire/app.go and the `Runnables` thunk of
    pkg/wire/runnables.go.  The defaults that pkg/wire/defaultoptions.go
    loads from the environment are an input. */
module WireApp {
  import opened Base
  import Slog
  import InternalAppNew
  import WireOptions

  /** A `func() []app.Runnable`: a thunk that returns the same list on every call. */
  datatype RunnablesFunc = RunnablesFunc(result: seq<InternalAppNew.Runnable>)

  function Call(f: RunnablesFunc): seq<InternalAppNew.Runnable> {
    f.result
  }

  /** `Runnables(rs...)`: a thunk returning exactly `rs`, unfiltered. */
  function Runnables(rs: seq<InternalAppNew.Runnable>): (f: RunnablesFunc)
    ensures Call(f) == rs && |Call(f)| == |rs|
  {
    RunnablesFunc(rs)
  }

  const NilRunnablesFuncText := "runnablesFunc cannot be nil"
  const DefaultsPrefix := "failed to retrieve default options for app: "
  const NewPrefix := "failed to create app: "

  datatype AppResult = AppResult(app: Option<InternalAppNew.App>, err: Option<Error>)

  /** The `Params` that `App` hands to `app.New`, from the options after the
      user's setters and the logger the options' attributes went to. */
  function MakeParams(options: WireOptions.AppOptions, logger: Slog.Logger, f: RunnablesFunc): InternalAppNew.Params {
    InternalAppNew.Params(options.appConf.shutdownTimeout, Call(f), options.shutdownSig, logger, options.logAttrs)
  }

  /** `App(runnablesFunc, opts...)` as written: the attributes are added to
      the logger here and are passed on in `LogAttrs` as well. */
  function AppAsWritten(runnablesFunc: Option<RunnablesFunc>, opts: seq<WireOptions.AppOption>,
                        defaults: Result<WireOptions.AppOptions>, check: InternalAppNew.EmbedsCheck): (r: AppResult)
    ensures runnablesFunc.None? ==> r == AppResult(None, Some(Message(NilRunnablesFuncText)))
    ensures runnablesFunc.Some? && defaults.Err? ==> r == AppResult(None, Some(Wrapped(DefaultsPrefix, defaults.error)))
    ensures r.app.Some? <==> r.err.None?
    ensures runnablesFunc.Some? && defaults.Ok? ==>
              var o := ApplyAll(defaults.value, opts);
              && (r.err.None? <==> forall i | 0 <= i < |Call(runnablesFunc.value)| :: check(Call(runnablesFunc.value)[i]).None?)
              && (r.err.Some? ==> exists e :: r.err == Some(Wrapped(NewPrefix, e)))
              && (r.app.Some? ==> r.app.value == InternalAppNew.App(o.appConf.shutdownTimeout, Call(runnablesFunc.value),
                                                                     o.shutdownSig, WithAttrsTwice(o)))
  {
    if runnablesFunc.None? then AppResult(None, Some(Message(NilRunnablesFuncText)))
    else if defaults.Err? then AppResult(None, Some(Wrapped(DefaultsPrefix, defaults.error)))
    else
      var options := ApplyAll(defaults.value, opts);
      assert options.logger.attrs + [] == options.logger.attrs;
      var logger := if |options.logAttrs| > 0 then Slog.WithAll(options.logger, options.logAttrs) else options.logger;
      var created := InternalAppNew.New(MakeParams(options, logger, runnablesFunc.value), check);
      if created.err.Some? then AppResult(None, Some(Wrapped(NewPrefix, created.err.value)))
      else AppResult(created.app, None)
  }

  /** The options' logger with the options' attributes added twice, as the
      code as written leaves it. */
  function WithAttrsTwice(o: WireOptions.AppOptions): Slog.Logger {
    Slog.Logger(o.logger.handler, o.logger.attrs + o.logAttrs + o.logAttrs)
  }

  /** The code as written and the corrected `App` fail and succeed on the
      same inputs with the same error, and their apps differ in the logger's
      attributes alone. */
  lemma AsWrittenDiffersOnlyInLogger(runnablesFunc: Option<RunnablesFunc>, opts: seq<WireOptions.AppOption>,
                                     defaults: Result<WireOptions.AppOptions>, check: InternalAppNew.EmbedsCheck)
    ensures AppAsWritten(runnablesFunc, opts, defaults, check).err == App(runnablesFunc, opts, defaults, check).err
    ensures AppAsWritten(runnablesFunc, opts, defaults, check).app.Some? <==> App(runnablesFunc, opts, defaults, check).app.Some?
    ensures App(runnablesFunc, opts, defaults, check).app.Some? ==>
              var w := AppAsWritten(runnablesFunc, opts, defaults, check).app.value;
              var c := App(runnablesFunc, opts, defaults, check).app.value;
              w == c.(logger := w.logger) && w.logger.handler == c.logger.handler
  {
  }

  /** The attributes reach the app's logger twice: once here and once more in
      `app.New`.  A single attribute on a logger without attributes ends up
      in it two times. */
  lemma LogAttrsAppliedTwice(f: RunnablesFunc, opts: seq<WireOptions.AppOption>, defaults: WireOptions.AppOptions,
                             check: InternalAppNew.EmbedsCheck, a: Slog.Attr)
    requires AppAsWritten(Some(f), opts, Ok(defaults), check).app.Some?
    ensures var o := ApplyAll(defaults, opts);
            AppAsWritten(Some(f), opts, Ok(defaults), check).app.value.logger.attrs
            == o.logger.attrs + o.logAttrs + o.logAttrs
    ensures var o := ApplyAll(defaults, opts);
            o.logger.attrs == [] && o.logAttrs == [a] ==>
              Slog.Occurrences(AppAsWritten(Some(f), opts, Ok(defaults), check).app.value.logger.attrs, a) == 2
  {
    var o := ApplyAll(defaults, opts);
    if o.logAttrs == [] {
      assert o.logger.attrs + [] + [] == o.logger.attrs;
    }
    if o.logger.attrs == [] && o.logAttrs == [a] {
      assert o.logger.attrs + o.logAttrs + o.logAttrs == [a, a];
      assert [a, a][1..] == [a];
      assert [a][1..] == [];
      assert Slog.Occurrences([a], a) == 1;
      assert Slog.Occurrences([a, a], a) == 2;
    }
  }

  /** `App(runnablesFunc, opts...)` with the attributes left to `app.New`,
      which the `Params` documentation makes responsible for adding them. */
  function App(runnablesFunc: Option<RunnablesFunc>, opts: seq<WireOptions.AppOption>,
               defaults: Result<WireOptions.AppOptions>, check: InternalAppNew.EmbedsCheck): (r: AppResult)
    ensures runnablesFunc.None? ==> r == AppResult(None, Some(Message(NilRunnablesFuncText)))
    ensures runnablesFunc.Some? && defaults.Err? ==> r == AppResult(None, Some(Wrapped(DefaultsPrefix, defaults.error)))
    ensures r.app.Some? <==> r.err.None?
    ensures runnablesFunc.Some? && defaults.Ok? ==>
              var o := ApplyAll(defaults.value, opts);
              && (r.err.None? <==> forall i | 0 <= i < |Call(runnablesFunc.value)| :: check(Call(runnablesFunc.value)[i]).None?)
              && (r.err.Some? ==> exists e :: r.err == Some(Wrapped(NewPrefix, e)))
              && (r.app.Some? ==> r.app.value == InternalAppNew.App(o.appConf.shutdownTimeout, Call(runnablesFunc.value),
                                                                     o.shutdownSig, WithAttrsOnce(o)))
  {
    if runnablesFunc.None? then AppResult(None, Some(Message(NilRunnablesFuncText)))
    else if defaults.Err? then AppResult(None, Some(Wrapped(DefaultsPrefix, defaults.error)))
    else
      var options := ApplyAll(defaults.value, opts);
      var created := InternalAppNew.New(MakeParams(options, options.logger, runnablesFunc.value), check);
      if created.err.Some? then AppResult(None, Some(Wrapped(NewPrefix, created.err.value)))
      else AppResult(created.app, None)
  }

  /** The options' logger with each of the options' attributes added once. */
  function WithAttrsOnce(o: WireOptions.AppOptions): Slog.Logger {
    Slog.Logger(o.logger.handler, o.logger.attrs + o.logAttrs)
  }

  /** Corrected: every attribute appears in the app's logger as many times as
      it was given. */
  lemma AppAttrsOnce(f: RunnablesFunc, opts: seq<WireOptions.AppOption>, defaults: WireOptions.AppOptions,
                     check: InternalAppNew.EmbedsCheck, a: Slog.Attr)
    requires App(Some(f), opts, Ok(defaults), check).app.Some?
    ensures var o := ApplyAll(defaults, opts);
            Slog.Occurrences(App(Some(f), opts, Ok(defaults), check).app.value.logger.attrs, a)
            == Slog.Occurrences(o.logger.attrs, a) + Slog.Occurrences(o.logAttrs, a)
  {
    var o := ApplyAll(defaults, opts);
    Slog.OccurrencesAppend(o.logger.attrs, o.logAttrs, a);
  }

  /** A nil thunk is rejected before the defaults are even looked at. */
  lemma NilThunkBeforeDefaults(opts: seq<WireOptions.AppOption>, d1: Result<WireOptions.AppOptions>,
                               d2: Result<WireOptions.AppOptions>, check: InternalAppNew.EmbedsCheck)
    ensures App(None, opts, d1, check) == App(None, opts, d2, check)
    ensures App(None, opts, d1, check).err == Some(Message("runnablesFunc cannot be nil"))
  {
  }

  /** The user's options are applied after the defaults, left to right, so a
      later setter overrides an earlier one and both override the default. */
  lemma OptionsAfterDefaults(f: RunnablesFunc, defaults: WireOptions.AppOptions, check: InternalAppNew.EmbedsCheck,
                             t1: int, t2: int)
    requires App(Some(f), [WireOptions.WithAppShutdownTimeout(t1), WireOptions.WithAppShutdownTimeout(t2)],
                 Ok(defaults), check).app.Some?
    ensures App(Some(f), [WireOptions.WithAppShutdownTimeout(t1), WireOptions.WithAppShutdownTimeout(t2)],
                Ok(defaults), check).app.value.shutdownTimeout == t2
  {
    ApplyAllTwo(defaults, WireOptions.WithAppShutdownTimeout(t1), WireOptions.WithAppShutdownTimeout(t2));
  }
}
