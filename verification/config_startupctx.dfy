/** The startup context of internal/config/startupctx.go: a deadline from
    EZAPP_STARTUP_TIMEOUT and, stored as a context value, the shutdown
    duration from EZAPP_SHUTDOWN_TIMEOUT; both whole seconds, default 15. */
module StartupCtx {
  import opened Base
  import Strconv

  const StartupTimeoutEnv := "EZAPP_STARTUP_TIMEOUT"
  const ShutdownTimeoutEnv := "EZAPP_SHUTDOWN_TIMEOUT"
  const DefaultSeconds := 15

  /** What a context holds under the key "shutdownTimeoutDuration": nothing,
      a `time.Duration`, or a value of some other type. */
  datatype StoredValue = Absent | DurationValue(seconds: int) | OtherValue

  /** A context as far as these functions look at it: its deadline offset in
      seconds (if any) and the value under "shutdownTimeoutDuration". */
  datatype Context = Context(deadlineSeconds: Option<int>, shutdownTimeoutDuration: StoredValue)

  function InvalidStartupText(value: string): string {
    "invalid EZAPP_STARTUP_TIMEOUT value: " + value + " - must be an integer representing seconds"
  }

  function InvalidShutdownText(value: string): string {
    "invalid EZAPP_SHUTDOWN_TIMEOUT value: " + value + " - must be an integer representing seconds"
  }

  /** The seconds a non-empty, Atoi-valid value denotes, and the default otherwise. */
  function SecondsOrDefault(env: string): int {
    if env != "" && Strconv.AtoiAccepts(env) then Strconv.NumeralValue(env) else DefaultSeconds
  }

  predicate Acceptable(env: string) {
    env == "" || Strconv.AtoiAccepts(env)
  }

  /** `StartupCtx()` given the two environment values ("" when unset).
      The startup value is parsed first, so its error wins when both are bad. */
  function StartupCtx(startupEnv: string, shutdownEnv: string): (r: Result<Context>)
    ensures r.Ok? <==> Acceptable(startupEnv) && Acceptable(shutdownEnv)
    ensures !Acceptable(startupEnv) ==> r == Err(Message(InvalidStartupText(startupEnv)))
    ensures Acceptable(startupEnv) && !Acceptable(shutdownEnv) ==>
              r == Err(Message(InvalidShutdownText(shutdownEnv)))
    ensures r.Ok? ==> r.value == Context(Some(SecondsOrDefault(startupEnv)),
                                         DurationValue(SecondsOrDefault(shutdownEnv)))
  {
    var startup :=
      if startupEnv == "" then Ok(DefaultSeconds)
      else match Strconv.Atoi(startupEnv)
        case Some(n) => Ok(n)
        case None => Err(Message(InvalidStartupText(startupEnv)));
    if startup.Err? then Err(startup.error)
    else
      var shutdown :=
        if shutdownEnv == "" then Ok(DefaultSeconds)
        else match Strconv.Atoi(shutdownEnv)
          case Some(n) => Ok(n)
          case None => Err(Message(InvalidShutdownText(shutdownEnv)));
      if shutdown.Err? then Err(shutdown.error)
      else Ok(Context(Some(startup.value), DurationValue(shutdown.value)))
  }

  /** `GetShutdownTimeout(ctx)`: the stored duration when the value is a
      duration, 15 s when it is missing or of another type. */
  function GetShutdownTimeout(ctx: Context): (seconds: int)
    ensures ctx.shutdownTimeoutDuration.DurationValue? ==> seconds == ctx.shutdownTimeoutDuration.seconds
    ensures !ctx.shutdownTimeoutDuration.DurationValue? ==> seconds == DefaultSeconds
  {
    match ctx.shutdownTimeoutDuration
    case DurationValue(s) => s
    case _ => DefaultSeconds
  }

  /** Storing then reading back: the timeout read from a context StartupCtx
      made is the one EZAPP_SHUTDOWN_TIMEOUT asked for. */
  lemma StoredShutdownReadBack(startupEnv: string, shutdownEnv: string)
    requires StartupCtx(startupEnv, shutdownEnv).Ok?
    ensures GetShutdownTimeout(StartupCtx(startupEnv, shutdownEnv).value) == SecondsOrDefault(shutdownEnv)
    ensures shutdownEnv == "" ==> GetShutdownTimeout(StartupCtx(startupEnv, shutdownEnv).value) == 15
  {
  }

  /** A context without the value, e.g. `context.Background()`, reads as 15 s. */
  lemma BackgroundReadsDefault()
    ensures GetShutdownTimeout(Context(None, Absent)) == 15
    ensures GetShutdownTimeout(Context(None, OtherValue)) == 15
  {
  }
}
