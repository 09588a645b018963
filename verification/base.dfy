/** Shared vocabulary: optional values, results, and Go `error` values as far as
    the lifecycle decisions need to tell them apart. */
module Base {

  datatype Option<+T> = None | Some(value: T)

  /** A Go `(T, error)` pair where exactly one side is meaningful. */
  datatype Result<+T> = Ok(value: T) | Err(error: Error)

  /** A Go `error`.  `Canceled` and `DeadlineExceeded` are the two sentinel
      values of package context; `Wrapped(p, e)` is `fmt.Errorf("p%w", e)`. */
  datatype Error =
    | Canceled
    | DeadlineExceeded
    | Message(text: string)
    | Wrapped(prefix: string, cause: Error)

  /** The string `err.Error()` returns. */
  function Text(e: Error): string {
    match e
    case Canceled => "context canceled"
    case DeadlineExceeded => "context deadline exceeded"
    case Message(t) => t
    case Wrapped(p, c) => p + Text(c)
  }

  /** `errors.Is(e, context.Canceled)`: the sentinel itself, or anything that
      wraps it with `%w`.  A message that merely reads "context canceled" is not it. */
  predicate IsCanceled(e: Error) {
    match e
    case Canceled => true
    case Wrapped(_, c) => IsCanceled(c)
    case _ => false
  }

  /** `needle` occurs as a contiguous piece of `hay`. */
  ghost predicate Contains(hay: string, needle: string) {
    exists i :: OccursAt(hay, needle, i)
  }

  predicate OccursAt(hay: string, needle: string, i: int) {
    0 <= i <= |hay| - |needle| && hay[i..i + |needle|] == needle
  }

  /** A go slice, where a nil slice and an empty non-nil slice are told apart. */
  datatype Slice<T> = Nil | Make(items: seq<T>) {
    function Items(): seq<T> {
      match this
      case Nil => []
      case Make(xs) => xs
    }
  }

  /** Go's `append(s, xs...)`: appending nothing to a nil slice leaves it nil. */
  function Append<T>(s: Slice<T>, xs: seq<T>): (r: Slice<T>)
    ensures r.Items() == s.Items() + xs
    ensures r.Nil? <==> s.Nil? && xs == []
  {
    if s.Nil? && xs == [] then Nil else Make(s.Items() + xs)
  }

  /** Go's `for _, opt := range opts { opt(x) }` over pure updates: the
      options applied left to right, each once. */
  function ApplyAll<T>(x: T, fs: seq<T -> T>): T
    decreases |fs|
  {
    if fs == [] then x else ApplyAll(fs[0](x), fs[1..])
  }

  /** The options after a split point see the value the options before it produced. */
  lemma {:induction false} ApplyAllSplit<T>(x: T, f1: seq<T -> T>, f2: seq<T -> T>)
    ensures ApplyAll(x, f1 + f2) == ApplyAll(ApplyAll(x, f1), f2)
    decreases |f1|
  {
    if f1 == [] {
      assert f1 + f2 == f2;
    } else {
      assert (f1 + f2)[0] == f1[0];
      assert (f1 + f2)[1..] == f1[1..] + f2;
      ApplyAllSplit(f1[0](x), f1[1..], f2);
    }
  }

  lemma ApplyAllOne<T>(x: T, f: T -> T)
    ensures ApplyAll(x, [f]) == f(x)
  {
    assert [f][0] == f;
    assert [f][1..] == [];
    assert ApplyAll(f(x), []) == f(x);
  }

  /** The last option applied acts on what all earlier ones produced. */
  lemma ApplyAllLast<T>(x: T, fs: seq<T -> T>, f: T -> T)
    ensures ApplyAll(x, fs + [f]) == f(ApplyAll(x, fs))
  {
    ApplyAllSplit(x, fs, [f]);
    ApplyAllOne(ApplyAll(x, fs), f);
  }

  lemma ApplyAllTwo<T>(x: T, f: T -> T, g: T -> T)
    ensures ApplyAll(x, [f, g]) == g(f(x))
  {
    assert [f, g] == [f] + [g];
    ApplyAllLast(x, [f], g);
    ApplyAllOne(x, f);
  }

  /** The sequences of `xss`, one after another. */
  function Flatten<T>(xss: seq<seq<T>>): seq<T> {
    if xss == [] then [] else xss[0] + Flatten(xss[1..])
  }

  /** The sum of the lengths of the sequences of `xss`. */
  function SumLengths<T>(xss: seq<seq<T>>): nat {
    if xss == [] then 0 else |xss[0]| + SumLengths(xss[1..])
  }
}
