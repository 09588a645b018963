/** Build options of pkg/buildoption/buildoption.go: a record with four
    fields, its defaults, setters, getters and the shutdown-signal fallback.
    Durations are whole seconds; channels and handlers are opaque values. */
module BuildOption {
  import opened Base

  const DefaultStartupTimeout := 15
  const DefaultEnvVarPrefix := ""

  /** An `app.ErrorHandler`: the package's own `DefaultErrorHandler` or some
      other function. */
  datatype ErrorHandler = DefaultErrorHandler | Handler(id: nat)

  /** A `<-chan struct{}`. */
  datatype Chan = Chan(id: nat)

  datatype Options = Options(errorHandler: Option<ErrorHandler>, startupTimeout: int,
                             envVarPrefix: string, shutdownSignal: Option<Chan>)

  type BuildOptionFn = Options -> Options

  /** `WithoutOptions()`. */
  function WithoutOptions(): (o: Options)
    ensures o.errorHandler == Some(DefaultErrorHandler)
    ensures o.startupTimeout == 15 && o.envVarPrefix == "" && o.shutdownSignal.None?
  {
    Options(Some(DefaultErrorHandler), DefaultStartupTimeout, DefaultEnvVarPrefix, None)
  }

  /** `WithOptions(opts...)`: the options applied, left to right, to the defaults. */
  function WithOptions(opts: seq<BuildOptionFn>): Options {
    ApplyAll(WithoutOptions(), opts)
  }

  function WithErrorHandler(h: Option<ErrorHandler>): (opt: BuildOptionFn)
    ensures forall o: Options :: opt(o) == Options(h, o.startupTimeout, o.envVarPrefix, o.shutdownSignal)
    ensures forall o: Options :: opt(opt(o)) == opt(o)
  {
    (o: Options) => o.(errorHandler := h)
  }

  function WithStartupTimeout(seconds: int): (opt: BuildOptionFn)
    ensures forall o: Options :: opt(o) == Options(o.errorHandler, seconds, o.envVarPrefix, o.shutdownSignal)
    ensures forall o: Options :: opt(opt(o)) == opt(o)
  {
    (o: Options) => o.(startupTimeout := seconds)
  }

  function WithEnvVarPrefix(prefix: string): (opt: BuildOptionFn)
    ensures forall o: Options :: opt(o) == Options(o.errorHandler, o.startupTimeout, prefix, o.shutdownSignal)
    ensures forall o: Options :: opt(opt(o)) == opt(o)
  {
    (o: Options) => o.(envVarPrefix := prefix)
  }

  function WithShutdownSignal(c: Option<Chan>): (opt: BuildOptionFn)
    ensures forall o: Options :: opt(o) == Options(o.errorHandler, o.startupTimeout, o.envVarPrefix, c)
    ensures forall o: Options :: opt(opt(o)) == opt(o)
  {
    (o: Options) => o.(shutdownSignal := c)
  }

  function GetErrorHandler(o: Options): Option<ErrorHandler> { o.errorHandler }
  function GetStartupTimeout(o: Options): int { o.startupTimeout }
  function GetEnvVarPrefix(o: Options): string { o.envVarPrefix }

  /** `GetShutdownSignal()`: the stored channel, or, when none is stored, the
      channel `DefaultShutdownSignal()` makes (here a parameter). */
  function GetShutdownSignal(o: Options, defaultSignal: Chan): (c: Chan)
    ensures o.shutdownSignal.Some? ==> c == o.shutdownSignal.value
    ensures o.shutdownSignal.None? ==> c == defaultSignal
  {
    match o.shutdownSignal
    case Some(s) => s
    case None => defaultSignal
  }

  /** What calling an error handler does. */
  datatype HandlerResult = ReturnsNormally(err: Option<Error>) | Panics(value: Error)

  /** Calling `h(err)`, where `other` is the behaviour of handlers that are
      not `DefaultErrorHandler`. */
  function CallErrorHandler(h: ErrorHandler, err: Error, other: (nat, Error) -> Option<Error>): (r: HandlerResult)
    ensures h == DefaultErrorHandler ==> r == Panics(err)
    ensures h.Handler? ==> r == ReturnsNormally(other(h.id, err))
  {
    match h
    case DefaultErrorHandler => Panics(err)
    case Handler(id) => ReturnsNormally(other(id, err))
  }

  /** `WithOptions()` with no options is `WithoutOptions()`, field for field. */
  lemma NoOptionsIsWithoutOptions()
    ensures WithOptions([]) == WithoutOptions()
  {
  }

  /** `DefaultErrorHandler` never returns normally: it panics with its argument. */
  lemma DefaultErrorHandlerPanics(err: Error, other: (nat, Error) -> Option<Error>)
    ensures !CallErrorHandler(DefaultErrorHandler, err, other).ReturnsNormally?
    ensures GetErrorHandler(WithoutOptions()) == Some(DefaultErrorHandler)
  {
  }

  /** A value set by a setter is what the getter reads back; the fields it did
      not set keep their defaults. */
  lemma SetThenGet(h: ErrorHandler, seconds: int, prefix: string, c: Chan, d: Chan)
    ensures GetErrorHandler(WithOptions([WithErrorHandler(Some(h))])) == Some(h)
    ensures GetStartupTimeout(WithOptions([WithStartupTimeout(seconds)])) == seconds
    ensures GetEnvVarPrefix(WithOptions([WithEnvVarPrefix(prefix)])) == prefix
    ensures GetShutdownSignal(WithOptions([WithShutdownSignal(Some(c))]), d) == c
    ensures WithOptions([WithEnvVarPrefix(prefix)]) == WithoutOptions().(envVarPrefix := prefix)
  {
    ApplyAllOne(WithoutOptions(), WithErrorHandler(Some(h)));
    ApplyAllOne(WithoutOptions(), WithStartupTimeout(seconds));
    ApplyAllOne(WithoutOptions(), WithEnvVarPrefix(prefix));
    ApplyAllOne(WithoutOptions(), WithShutdownSignal(Some(c)));
  }

  /** No shutdown signal set, or nil set explicitly: the default channel is used. */
  lemma ShutdownSignalFallback(d: Chan)
    ensures GetShutdownSignal(WithOptions([]), d) == d
    ensures GetShutdownSignal(WithOptions([WithShutdownSignal(None)]), d) == d
  {
    ApplyAllOne(WithoutOptions(), WithShutdownSignal(None));
  }

  /** Left to right: for the same field the last setter wins. */
  lemma LastSetterWins(h1: Option<ErrorHandler>, h2: Option<ErrorHandler>, s1: int, s2: int,
                        p1: string, p2: string, c1: Option<Chan>, c2: Option<Chan>)
    ensures GetErrorHandler(WithOptions([WithErrorHandler(h1), WithErrorHandler(h2)])) == h2
    ensures GetStartupTimeout(WithOptions([WithStartupTimeout(s1), WithStartupTimeout(s2)])) == s2
    ensures GetEnvVarPrefix(WithOptions([WithEnvVarPrefix(p1), WithEnvVarPrefix(p2)])) == p2
    ensures WithOptions([WithShutdownSignal(c1), WithShutdownSignal(c2)]).shutdownSignal == c2
  {
    ApplyAllTwo(WithoutOptions(), WithErrorHandler(h1), WithErrorHandler(h2));
    ApplyAllTwo(WithoutOptions(), WithShutdownSignal(c1), WithShutdownSignal(c2));
    ApplyAllTwo(WithoutOptions(), WithStartupTimeout(s1), WithStartupTimeout(s2));
    ApplyAllTwo(WithoutOptions(), WithEnvVarPrefix(p1), WithEnvVarPrefix(p2));
  }
}
