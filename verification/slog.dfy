/** The part of Go's log/slog that the wiring code relies on: a logger
    carries the attributes added with `With`, in the order they were added. */
module Slog {

  datatype Attr = Attr(key: string, value: string)

  /** A `*slog.Logger`: its handler (opaque) and the attributes added so far. */
  datatype Logger = Logger(handler: nat, attrs: seq<Attr>)

  /** `l.With(a.Key, a.Value.Any())`. */
  function With(l: Logger, a: Attr): (r: Logger)
    ensures r.handler == l.handler && r.attrs == l.attrs + [a]
  {
    l.(attrs := l.attrs + [a])
  }

  /** `for _, a := range attrs { l = l.With(a.Key, a.Value.Any()) }`. */
  function WithAll(l: Logger, attrs: seq<Attr>): (r: Logger)
    ensures r.handler == l.handler && r.attrs == l.attrs + attrs
    decreases |attrs|
  {
    if attrs == [] then l
    else
      assert l.attrs + [attrs[0]] + attrs[1..] == l.attrs + attrs;
      WithAll(With(l, attrs[0]), attrs[1..])
  }

  /** How many times `a` occurs in `attrs`. */
  function Occurrences(attrs: seq<Attr>, a: Attr): nat {
    if attrs == [] then 0 else (if attrs[0] == a then 1 else 0) + Occurrences(attrs[1..], a)
  }

  lemma {:induction false} OccurrencesAppend(xs: seq<Attr>, ys: seq<Attr>, a: Attr)
    ensures Occurrences(xs + ys, a) == Occurrences(xs, a) + Occurrences(ys, a)
    decreases |xs|
  {
    if xs == [] {
      assert xs + ys == ys;
    } else {
      assert (xs + ys)[0] == xs[0];
      assert (xs + ys)[1..] == xs[1..] + ys;
      OccurrencesAppend(xs[1..], ys, a);
    }
  }
}
