/** The option-list combinators of pkg/link (named.go, grouped.go,
    impl.go).  An option appends to the list of dig provide options; dig's
    options are opaque apart from which constructor made them. */
module Link {

  /** A `dig.ProvideOption`: `dig.Name(n)`, `dig.Group(g)`, `dig.As(new(T))`
      for the type named `T`, or any other option. */
  datatype ProvideOption = Name(name: string) | Group(group: string) | As(typeName: string) | Other(id: nat)

  /** `link.Option`: `func(*[]dig.ProvideOption)`, as a pure update. */
  type LinkOption = seq<ProvideOption> -> seq<ProvideOption>

  /** `Named(name)` applied to the list `xs`: one `Name(name)` after the
      existing entries. */
  function Named(name: string, xs: seq<ProvideOption>): (r: seq<ProvideOption>)
    ensures |r| == |xs| + 1 && r[..|xs|] == xs && r[|xs|] == Name(name)
  {
    xs + [Name(name)]
  }

  /** `Grouped(group)` applied to `xs`: one `Group(group)` after the existing entries. */
  function Grouped(group: string, xs: seq<ProvideOption>): (r: seq<ProvideOption>)
    ensures |r| == |xs| + 1 && r[..|xs|] == xs && r[|xs|] == Group(group)
  {
    xs + [Group(group)]
  }

  /** `Impl[T](inner)` applied to `xs`: the inner option first, then `As(T)`,
      which therefore is always the last entry. */
  function Impl(typeName: string, inner: LinkOption, xs: seq<ProvideOption>): (r: seq<ProvideOption>)
    ensures |r| == |inner(xs)| + 1 && r[..|inner(xs)|] == inner(xs) && r[|r| - 1] == As(typeName)
  {
    inner(xs) + [As(typeName)]
  }

  /** How many entries of `xs` are `As` entries. */
  function CountAs(xs: seq<ProvideOption>): nat {
    if xs == [] then 0 else (if xs[0].As? then 1 else 0) + CountAs(xs[1..])
  }

  lemma {:induction false} CountAsAppend(xs: seq<ProvideOption>, ys: seq<ProvideOption>)
    ensures CountAs(xs + ys) == CountAs(xs) + CountAs(ys)
    decreases |xs|
  {
    if xs == [] {
      assert xs + ys == ys;
    } else {
      assert (xs + ys)[0] == xs[0];
      assert (xs + ys)[1..] == xs[1..] + ys;
      CountAsAppend(xs[1..], ys);
    }
  }

  /** `Named` and `Grouped` add no `As` entry; `Impl` adds exactly one more
      than its inner option. */
  lemma AsCount(xs: seq<ProvideOption>, n: string, t: string, inner: LinkOption)
    ensures CountAs(Named(n, xs)) == CountAs(xs)
    ensures CountAs(Grouped(n, xs)) == CountAs(xs)
    ensures CountAs(Impl(t, inner, xs)) == CountAs(inner(xs)) + 1
  {
    CountAsAppend(xs, [Name(n)]);
    CountAsAppend(xs, [Group(n)]);
    CountAsAppend(inner(xs), [As(t)]);
    assert CountAs([Name(n)]) == 0 by { assert [Name(n)][1..] == []; }
    assert CountAs([Group(n)]) == 0 by { assert [Group(n)][1..] == []; }
    assert CountAs([As(t)]) == 1 by { assert [As(t)][1..] == []; }
  }
}
