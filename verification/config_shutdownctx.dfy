/** The cleanup context of internal/config/shutdownctx.go: its timeout comes
    from EZAPP_SHUTDOWN_TIMEOUT, in whole seconds, default 15. */
module ShutdownCtx {
  import opened Base
  import Strconv

  const ShutdownTimeoutEnv := "EZAPP_SHUTDOWN_TIMEOUT"
  const DefaultSeconds := 15

  /** `context.WithTimeout(context.Background(), timeout)`, by its timeout. */
  datatype Context = Context(timeoutSeconds: int)

  function InvalidValueText(value: string): string {
    "invalid EZAPP_SHUTDOWN_TIMEOUT value: " + value + " - must be an integer representing seconds"
  }

  /** `ShutdownCtx()` given the value of EZAPP_SHUTDOWN_TIMEOUT ("" when unset). */
  function ShutdownCtx(env: string): (r: Result<Context>)
    ensures env == "" ==> r == Ok(Context(DefaultSeconds))
    ensures env != "" ==> (r.Ok? <==> Strconv.AtoiAccepts(env))
    ensures env != "" && r.Ok? ==> r.value.timeoutSeconds == Strconv.NumeralValue(env)
    ensures r.Err? ==> r.error == Message(InvalidValueText(env))
  {
    if env == "" then Ok(Context(DefaultSeconds))
    else
      match Strconv.Atoi(env)
      case Some(n) => Ok(Context(n))
      case None => Err(Message(InvalidValueText(env)))
  }

  /** The error text quotes the offending value. */
  lemma ErrorQuotesValue(env: string)
    requires ShutdownCtx(env).Err?
    ensures Contains(Text(ShutdownCtx(env).error), env)
  {
    var prefix := "invalid EZAPP_SHUTDOWN_TIMEOUT value: ";
    var t := Text(ShutdownCtx(env).error);
    assert t[|prefix|..|prefix| + |env|] == env;
    assert OccursAt(t, env, |prefix|);
  }
}
