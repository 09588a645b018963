/** Log-level selection from EZAPP_LOG_LEVEL (internal/config/loadlogger.go).
    Building the slog JSON handler is not modelled; only the level chosen. */
module LoadLogger {

  const LogLevelEnv := "EZAPP_LOG_LEVEL"

  datatype Level = Debug | Info | Warn | Error

  /** Upper-casing of one rune as far as it can matter for matching ASCII words:
      the ASCII letters, plus the two runes Go's `unicode.ToUpper` maps into ASCII
      (U+0131 dotless i to 'I', U+017F long s to 'S').  Every other rune is left
      as it is; Go maps some of them to other non-ASCII runes, which can never
      equal an ASCII letter either. */
  function UpperRune(c: char): char {
    if 'a' <= c <= 'z' then (c as int - 32) as char
    else if c == 'ı' then 'I'
    else if c == 'ſ' then 'S'
    else c
  }

  /** `strings.ToUpper`, rune by rune, with the case map narrowed to
      `UpperRune`: upper-case non-ASCII letters such as 'é' are not produced. */
  function ToUpper(s: string): (u: string)
    ensures |u| == |s|
    ensures forall i | 0 <= i < |s| :: u[i] == UpperRune(s[i])
  {
    if s == [] then [] else [UpperRune(s[0])] + ToUpper(s[1..])
  }

  /** The level `LoadLogger` configures for the value of EZAPP_LOG_LEVEL. */
  function SelectLevel(env: string): (l: Level)
    ensures l == Debug <==> ToUpper(env) == "DEBUG"
    ensures l == Warn <==> ToUpper(env) == "WARN"
    ensures l == Error <==> ToUpper(env) == "ERROR"
    ensures l == Info <==> ToUpper(env) !in {"DEBUG", "WARN", "ERROR"}
  {
    var u := ToUpper(env);
    if u == "DEBUG" then Debug
    else if u == "INFO" then Info
    else if u == "WARN" then Warn
    else if u == "ERROR" then Error
    else Info
  }

  /** Upper-cased letters are fixed points, so upper-casing twice is upper-casing once. */
  lemma ToUpperIdempotent(s: string)
    ensures ToUpper(ToUpper(s)) == ToUpper(s)
  {
    var u := ToUpper(s);
    var uu := ToUpper(u);
    assert forall i | 0 <= i < |s| :: uu[i] == u[i];
  }

  /** Two values that agree rune by rune up to case select the same level. */
  lemma {:induction false} SelectLevelIgnoresCase(a: string, b: string)
    requires |a| == |b|
    requires forall i | 0 <= i < |a| :: UpperRune(a[i]) == UpperRune(b[i])
    ensures SelectLevel(a) == SelectLevel(b)
  {
    assert ToUpper(a) == ToUpper(b);
  }

  /** The value is upper-cased before matching, so an already upper-cased copy
      selects the same level. */
  lemma SelectLevelOfUpper(s: string)
    ensures SelectLevel(ToUpper(s)) == SelectLevel(s)
  {
    ToUpperIdempotent(s);
  }
}
