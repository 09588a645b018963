/** The `options` record of pkg/ezapp/options.go and its three setters. */
module EzappOptions {
  import opened Base

  datatype ErrHandler = ErrHandler(id: nat)
  datatype CleanupFunc = CleanupFunc(id: nat)

  datatype Options = Options(errHandler: Option<ErrHandler>, cleanupFunc: Option<CleanupFunc>, configPrefix: string)

  type OptionFn = Options -> Options

  /** `getDefaultOptions()`. */
  function DefaultOptions(): (o: Options)
    ensures o.errHandler.None? && o.cleanupFunc.None? && o.configPrefix == ""
  {
    Options(None, None, "")
  }

  /** `WithErrorHandler(h)`: sets the handler, touches nothing else, and is idempotent. */
  function WithErrorHandler(h: Option<ErrHandler>): (opt: OptionFn)
    ensures forall o: Options :: opt(o).errHandler == h
    ensures forall o: Options :: opt(o).cleanupFunc == o.cleanupFunc && opt(o).configPrefix == o.configPrefix
    ensures forall o: Options :: opt(opt(o)) == opt(o)
  {
    (o: Options) => o.(errHandler := h)
  }

  /** `WithCleanupFunc(f)`: sets the cleanup, touches nothing else, and is idempotent. */
  function WithCleanupFunc(f: Option<CleanupFunc>): (opt: OptionFn)
    ensures forall o: Options :: opt(o).cleanupFunc == f
    ensures forall o: Options :: opt(o).errHandler == o.errHandler && opt(o).configPrefix == o.configPrefix
    ensures forall o: Options :: opt(opt(o)) == opt(o)
  {
    (o: Options) => o.(cleanupFunc := f)
  }

  /** `WithConfigPrefix(p)`: stores the prefix verbatim, touches nothing else,
      and is idempotent. */
  function WithConfigPrefix(p: string): (opt: OptionFn)
    ensures forall o: Options :: opt(o).configPrefix == p
    ensures forall o: Options :: opt(o).errHandler == o.errHandler && opt(o).cleanupFunc == o.cleanupFunc
    ensures forall o: Options :: opt(opt(o)) == opt(o)
  {
    (o: Options) => o.(configPrefix := p)
  }

  /** For each field the later setter wins. */
  lemma LastSetterWins(o: Options, h1: Option<ErrHandler>, h2: Option<ErrHandler>,
                       f1: Option<CleanupFunc>, f2: Option<CleanupFunc>, p1: string, p2: string)
    ensures WithErrorHandler(h2)(WithErrorHandler(h1)(o)) == WithErrorHandler(h2)(o)
    ensures WithCleanupFunc(f2)(WithCleanupFunc(f1)(o)) == WithCleanupFunc(f2)(o)
    ensures WithConfigPrefix(p2)(WithConfigPrefix(p1)(o)) == WithConfigPrefix(p2)(o)
  {
  }

  /** Setters of different fields commute, so only the order of setters of
      the same field matters. */
  lemma SettersOfDifferentFieldsCommute(o: Options, h: Option<ErrHandler>, f: Option<CleanupFunc>, p: string)
    ensures WithErrorHandler(h)(WithCleanupFunc(f)(o)) == WithCleanupFunc(f)(WithErrorHandler(h)(o))
    ensures WithErrorHandler(h)(WithConfigPrefix(p)(o)) == WithConfigPrefix(p)(WithErrorHandler(h)(o))
    ensures WithCleanupFunc(f)(WithConfigPrefix(p)(o)) == WithConfigPrefix(p)(WithCleanupFunc(f)(o))
  {
  }

  /** Applying one setter to the defaults changes exactly its own field. */
  lemma OneSetterOverDefaults(h: ErrHandler, f: CleanupFunc, p: string)
    ensures ApplyAll(DefaultOptions(), [WithErrorHandler(Some(h))]) == Options(Some(h), None, "")
    ensures ApplyAll(DefaultOptions(), [WithCleanupFunc(Some(f))]) == Options(None, Some(f), "")
    ensures ApplyAll(DefaultOptions(), [WithConfigPrefix(p)]) == Options(None, None, p)
  {
    ApplyAllOne(DefaultOptions(), WithErrorHandler(Some(h)));
    ApplyAllOne(DefaultOptions(), WithCleanupFunc(Some(f)));
    ApplyAllOne(DefaultOptions(), WithConfigPrefix(p));
  }
}
