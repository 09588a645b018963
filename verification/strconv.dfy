/** Go's `strconv.Atoi` and `strconv.Itoa` on a 64-bit `int`.

    The accepted syntax is an optional `+` or `-` followed by one or more
    decimal digits (no spaces, no underscores, no base prefix); the value must
    fit in a signed 64-bit integer.  `Atoi` below follows Go's own algorithm
    (a fast path for strings shorter than 19 bytes, `ParseInt` otherwise) and
    its contract ties that algorithm to the declarative syntax above. */
module Strconv {
  import opened Base

  const MinInt64: int := -0x8000_0000_0000_0000
  const MaxInt64: int := 0x7fff_ffff_ffff_ffff
  const MaxUint64: int := 0xffff_ffff_ffff_ffff

  predicate InInt64(n: int) {
    MinInt64 <= n <= MaxInt64
  }

  predicate IsDigit(c: char) {
    '0' <= c <= '9'
  }

  predicate AllDigits(s: string) {
    forall i | 0 <= i < |s| :: IsDigit(s[i])
  }

  function DigitValue(c: char): nat
    requires IsDigit(c)
  {
    c as int - '0' as int
  }

  function Pow10(k: nat): nat {
    if k == 0 then 1 else 10 * Pow10(k - 1)
  }

  /** The value of a decimal numeral, most significant digit first. */
  function DigitsValue(s: string): nat
    requires AllDigits(s)
  {
    if s == [] then 0 else 10 * DigitsValue(s[..|s| - 1]) + DigitValue(s[|s| - 1])
  }

  predicate HasSign(s: string) {
    |s| > 0 && (s[0] == '+' || s[0] == '-')
  }

  /** The digits part of a candidate numeral: everything after an optional sign. */
  function Magnitude(s: string): string {
    if HasSign(s) then s[1..] else s
  }

  /** Optional sign, then at least one decimal digit. */
  predicate IsNumeral(s: string) {
    |Magnitude(s)| > 0 && AllDigits(Magnitude(s))
  }

  function NumeralValue(s: string): int
    requires IsNumeral(s)
  {
    var m: int := DigitsValue(Magnitude(s));
    if s[0] == '-' then -m else m
  }

  /** The strings for which `strconv.Atoi` returns a nil error. */
  predicate AtoiAccepts(s: string) {
    IsNumeral(s) && InInt64(NumeralValue(s))
  }

  /** Reading a numeral's digits left to right, as Go's loops do (`n = n*10 + d`). */
  function Accumulate(ds: string, acc: nat): (r: Option<nat>)
    ensures r.Some? <==> AllDigits(ds)
    ensures r.Some? ==> r.value == acc * Pow10(|ds|) + DigitsValue(ds)
    decreases |ds|
  {
    if ds == [] then Some(acc)
    else if !IsDigit(ds[0]) then None
    else
      var d := DigitValue(ds[0]);
      var r := Accumulate(ds[1..], acc * 10 + d);
      AllDigitsFront(ds);
      if r.Some? then
        DigitsValueFront(ds);
        ShiftAccumulator(acc, d, Pow10(|ds| - 1), DigitsValue(ds[1..]));
        r
      else
        r
  }

  /** A string is all digits iff its first character and its tail are. */
  lemma AllDigitsFront(ds: string)
    requires |ds| > 0
    ensures AllDigits(ds) <==> IsDigit(ds[0]) && AllDigits(ds[1..])
  {
    if IsDigit(ds[0]) && AllDigits(ds[1..]) {
      forall i | 0 <= i < |ds| ensures IsDigit(ds[i]) {
        if i > 0 { assert ds[i] == ds[1..][i - 1]; }
      }
    }
    if AllDigits(ds) {
      forall i | 0 <= i < |ds[1..]| ensures IsDigit(ds[1..][i]) {
        assert ds[1..][i] == ds[i + 1];
      }
    }
  }

  lemma ShiftAccumulator(acc: nat, d: nat, p: nat, rest: nat)
    ensures (acc * 10 + d) * p + rest == acc * (10 * p) + (d * p + rest)
  {
  }

  /** A numeral's value split at its first digit. */
  lemma {:induction false} DigitsValueFront(ds: string)
    requires |ds| > 0 && AllDigits(ds)
    ensures AllDigits(ds[1..])
    ensures DigitsValue(ds) == DigitValue(ds[0]) * Pow10(|ds| - 1) + DigitsValue(ds[1..])
    decreases |ds|
  {
    assert AllDigits(ds[1..]) by {
      forall i | 0 <= i < |ds[1..]| ensures IsDigit(ds[1..][i]) {
        assert ds[1..][i] == ds[i + 1];
      }
    }
    if |ds| == 1 {
      assert ds[..0] == [];
      assert ds[1..] == [];
    } else {
      var init := ds[..|ds| - 1];
      assert AllDigits(init) by {
        forall i | 0 <= i < |init| ensures IsDigit(init[i]) {
          assert init[i] == ds[i];
        }
      }
      DigitsValueFront(init);
      var tail := ds[1..];
      assert init[0] == ds[0];
      assert tail[..|tail| - 1] == init[1..];
      assert tail[|tail| - 1] == ds[|ds| - 1];
      var last := DigitValue(ds[|ds| - 1]);
      assert DigitsValue(ds) == 10 * DigitsValue(init) + last;
      assert DigitsValue(tail) == 10 * DigitsValue(init[1..]) + last;
      assert Pow10(|ds| - 1) == 10 * Pow10(|init| - 1);
      ShiftDigit(DigitValue(ds[0]), Pow10(|init| - 1), DigitsValue(init[1..]), last);
    }
  }

  lemma ShiftDigit(d: nat, p: nat, rest: nat, last: nat)
    ensures 10 * (d * p + rest) + last == d * (10 * p) + (10 * rest + last)
  {
  }

  lemma {:induction false} DigitsValueBound(ds: string)
    requires AllDigits(ds)
    ensures DigitsValue(ds) < Pow10(|ds|)
    decreases |ds|
  {
    if ds != [] {
      var init := ds[..|ds| - 1];
      assert AllDigits(init) by {
        forall i | 0 <= i < |init| ensures IsDigit(init[i]) {
          assert init[i] == ds[i];
        }
      }
      DigitsValueBound(init);
    }
  }

  lemma Pow10Monotone(a: nat, b: nat)
    requires a <= b
    ensures Pow10(a) <= Pow10(b)
    decreases b - a
  {
    if a < b {
      Pow10Monotone(a, b - 1);
    }
  }

  lemma Pow10Of18()
    ensures Pow10(18) == 1_000_000_000_000_000_000
  {
    assert Pow10(1) == 10;
    assert Pow10(2) == 100;
    assert Pow10(3) == 1000;
    assert Pow10(4) == 10000;
    assert Pow10(5) == 100000;
    assert Pow10(6) == 1000000;
    assert Pow10(7) == 10000000;
    assert Pow10(8) == 100000000;
    assert Pow10(9) == 1000000000;
    assert Pow10(10) == 10000000000;
    assert Pow10(11) == 100000000000;
    assert Pow10(12) == 1000000000000;
    assert Pow10(13) == 10000000000000;
    assert Pow10(14) == 100000000000000;
    assert Pow10(15) == 1000000000000000;
    assert Pow10(16) == 10000000000000000;
    assert Pow10(17) == 100000000000000000;
  }

  /** Go's fast path (`0 < len(s) < 19`): sign, then the digit loop that rejects
      any byte outside '0'..'9'.  No range check is needed there. */
  function FastPath(s: string): Option<int>
    requires 0 < |s|
  {
    var body := if s[0] == '-' || s[0] == '+' then s[1..] else s;
    if |body| < 1 then None
    else
      match Accumulate(body, 0)
      case None => None
      case Some(n) => Some(if s[0] == '-' then -(n as int) else n)
  }

  /** Go's slow path, `ParseInt(s, 10, 0)`: empty is a syntax error; the
      unsigned part must fit `uint64`; the magnitude cutoff is 1<<63, inclusive
      only for negatives. */
  function SlowPath(s: string): Option<int> {
    if s == "" then None
    else
      var neg := s[0] == '-';
      var body := if s[0] == '+' || s[0] == '-' then s[1..] else s;
      if body == "" then None
      else
        match Accumulate(body, 0)
        case None => None
        case Some(un) =>
          if un > MaxUint64 then None
          else if !neg && un >= 0x8000_0000_0000_0000 then None
          else if neg && un > 0x8000_0000_0000_0000 then None
          else Some(if neg then -(un as int) else un)
  }

  /** On strings shorter than 19 bytes the fast path agrees with the
      declarative syntax: at most 18 digits always fit in 64 bits. */
  lemma FastPathAccepts(s: string)
    requires 0 < |s| < 19
    ensures FastPath(s).Some? <==> AtoiAccepts(s)
    ensures FastPath(s).Some? ==> FastPath(s).value == NumeralValue(s)
  {
    var body := Magnitude(s);
    assert body == (if s[0] == '-' || s[0] == '+' then s[1..] else s);
    if |body| > 0 && AllDigits(body) {
      DigitsValueBound(body);
      Pow10Monotone(|body|, 18);
      Pow10Of18();
    }
  }

  lemma SlowPathAccepts(s: string)
    ensures SlowPath(s).Some? <==> AtoiAccepts(s)
    ensures SlowPath(s).Some? ==> SlowPath(s).value == NumeralValue(s)
  {
    if s != "" {
      assert Magnitude(s) == (if s[0] == '+' || s[0] == '-' then s[1..] else s);
    }
  }

  /** `strconv.Atoi(s)`: `Some(n)` for a nil error, `None` for any error. */
  function Atoi(s: string): (r: Option<int>)
    ensures r.Some? <==> AtoiAccepts(s)
    ensures r.Some? ==> r.value == NumeralValue(s)
  {
    if 0 < |s| < 19 then
      FastPathAccepts(s);
      FastPath(s)
    else
      SlowPathAccepts(s);
      SlowPath(s)
  }

  /** Decimal digits of a natural number, without leading zeros. */
  function NatDigits(n: nat): (s: string)
    ensures |s| > 0 && AllDigits(s)
    ensures DigitsValue(s) == n
    ensures s[0] == '0' ==> n == 0
    decreases n
  {
    var last := ['0' + (n % 10) as char];
    if n < 10 then last
    else
      var s := NatDigits(n / 10) + last;
      assert s[..|s| - 1] == NatDigits(n / 10);
      s
  }

  /** `strconv.Itoa(n)`: decimal, with a leading '-' exactly when n is negative. */
  function Itoa(n: int): (s: string)
    ensures IsNumeral(s) && NumeralValue(s) == n
    ensures s[0] == '-' <==> n < 0
    ensures forall i | 0 <= i < |s| :: s[i] == '-' || IsDigit(s[i])
  {
    if n < 0 then
      var s := "-" + NatDigits(-n);
      assert Magnitude(s) == NatDigits(-n);
      s
    else
      NatDigits(n)
  }

  /** Atoi reads back exactly what Itoa writes, for every 64-bit int. */
  lemma AtoiItoa(n: int)
    requires InInt64(n)
    ensures Atoi(Itoa(n)) == Some(n)
  {
  }
}
