/** The `appOptions` record of pkg/wire/option.go and the six setters of
    pkg/wire/with*.go.  The record carries `criticalErrHandler`, which
    pkg/wire/defaultoptions.go and withcriticalerrorhandler.go set although
    option.go does not declare it.  Durations are whole seconds. */
module WireOptions {
  import opened Base
  import Slog
  import InternalAppNew

  /** `conf.AppConf`. */
  datatype AppConf = AppConf(shutdownTimeout: int, startupTimeout: int)

  /** A `func(error)`: the default handler (which panics) or another one. */
  datatype CriticalErrHandler = DefaultCriticalErrHandler | CriticalErrHandler(id: nat)

  datatype AppOptions = AppOptions(appConf: AppConf, shutdownSig: Option<InternalAppNew.Chan>, logger: Slog.Logger,
                                   logAttrs: seq<Slog.Attr>, criticalErrHandler: Option<CriticalErrHandler>)

  type AppOption = AppOptions -> AppOptions

  /** `WithLogAttrs(attrs...)`: replaces the attributes (it does not append). */
  function WithLogAttrs(attrs: seq<Slog.Attr>): (opt: AppOption)
    ensures forall o: AppOptions :: opt(o).logAttrs == attrs
    ensures forall o: AppOptions :: opt(o).(logAttrs := o.logAttrs) == o
    ensures forall o: AppOptions :: opt(opt(o)) == opt(o)
  {
    (o: AppOptions) => o.(logAttrs := attrs)
  }

  /** `WithAppShutdownTimeout(t)`. */
  function WithAppShutdownTimeout(seconds: int): (opt: AppOption)
    ensures forall o: AppOptions :: opt(o).appConf.shutdownTimeout == seconds
    ensures forall o: AppOptions :: opt(o).appConf.startupTimeout == o.appConf.startupTimeout
    ensures forall o: AppOptions :: opt(o).(appConf := o.appConf) == o
    ensures forall o: AppOptions :: opt(opt(o)) == opt(o)
  {
    (o: AppOptions) => o.(appConf := o.appConf.(shutdownTimeout := seconds))
  }

  /** `WithAppStartupTimeout(t)`. */
  function WithAppStartupTimeout(seconds: int): (opt: AppOption)
    ensures forall o: AppOptions :: opt(o).appConf.startupTimeout == seconds
    ensures forall o: AppOptions :: opt(o).appConf.shutdownTimeout == o.appConf.shutdownTimeout
    ensures forall o: AppOptions :: opt(o).(appConf := o.appConf) == o
    ensures forall o: AppOptions :: opt(opt(o)) == opt(o)
  {
    (o: AppOptions) => o.(appConf := o.appConf.(startupTimeout := seconds))
  }

  /** `WithShutdownSignal(ch)`, nil included. */
  function WithShutdownSignal(ch: Option<InternalAppNew.Chan>): (opt: AppOption)
    ensures forall o: AppOptions :: opt(o).shutdownSig == ch
    ensures forall o: AppOptions :: opt(o).(shutdownSig := o.shutdownSig) == o
    ensures forall o: AppOptions :: opt(opt(o)) == opt(o)
  {
    (o: AppOptions) => o.(shutdownSig := ch)
  }

  /** `WithLogger(l)`. */
  function WithLogger(l: Slog.Logger): (opt: AppOption)
    ensures forall o: AppOptions :: opt(o).logger == l
    ensures forall o: AppOptions :: opt(o).(logger := o.logger) == o
    ensures forall o: AppOptions :: opt(opt(o)) == opt(o)
  {
    (o: AppOptions) => o.(logger := l)
  }

  /** `WithCriticalErrHandler(h)`. */
  function WithCriticalErrHandler(h: Option<CriticalErrHandler>): (opt: AppOption)
    ensures forall o: AppOptions :: opt(o).criticalErrHandler == h
    ensures forall o: AppOptions :: opt(o).(criticalErrHandler := o.criticalErrHandler) == o
    ensures forall o: AppOptions :: opt(opt(o)) == opt(o)
  {
    (o: AppOptions) => o.(criticalErrHandler := h)
  }

  /** A second application of the same setter overwrites the first; in
      particular a second `WithLogAttrs` discards the earlier attributes. */
  lemma LogAttrsLastWins(o: AppOptions, a1: seq<Slog.Attr>, a2: seq<Slog.Attr>)
    ensures WithLogAttrs(a2)(WithLogAttrs(a1)(o)) == WithLogAttrs(a2)(o)
  {
  }

  lemma TimeoutsLastWins(o: AppOptions, t1: int, t2: int)
    ensures WithAppShutdownTimeout(t2)(WithAppShutdownTimeout(t1)(o)) == WithAppShutdownTimeout(t2)(o)
    ensures WithAppStartupTimeout(t2)(WithAppStartupTimeout(t1)(o)) == WithAppStartupTimeout(t2)(o)
  {
  }

  lemma ShutdownSignalLastWins(o: AppOptions, c1: Option<InternalAppNew.Chan>, c2: Option<InternalAppNew.Chan>)
    ensures WithShutdownSignal(c2)(WithShutdownSignal(c1)(o)) == WithShutdownSignal(c2)(o)
  {
  }

  lemma LoggerLastWins(o: AppOptions, l1: Slog.Logger, l2: Slog.Logger)
    ensures WithLogger(l2)(WithLogger(l1)(o)) == WithLogger(l2)(o)
  {
  }

  /** After a second `WithCriticalErrHandler` the first handler is no longer
      the one stored. */
  lemma CriticalErrHandlerLastWins(o: AppOptions, h1: Option<CriticalErrHandler>, h2: Option<CriticalErrHandler>)
    ensures WithCriticalErrHandler(h2)(WithCriticalErrHandler(h1)(o)) == WithCriticalErrHandler(h2)(o)
    ensures h1 != h2 ==> WithCriticalErrHandler(h2)(WithCriticalErrHandler(h1)(o)).criticalErrHandler != h1
  {
  }

  /** The two timeout setters change different halves of `appConf` and commute. */
  lemma TimeoutSettersCommute(o: AppOptions, s: int, t: int)
    ensures WithAppShutdownTimeout(s)(WithAppStartupTimeout(t)(o))
            == WithAppStartupTimeout(t)(WithAppShutdownTimeout(s)(o))
    ensures WithAppShutdownTimeout(s)(WithAppStartupTimeout(t)(o)).appConf == AppConf(s, t)
  {
  }

  /** `WithLogAttrs()` with no arguments empties the list. */
  lemma EmptyLogAttrs(o: AppOptions)
    ensures WithLogAttrs([])(o).logAttrs == []
  {
  }
}
