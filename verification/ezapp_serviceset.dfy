/** `ServiceSet` of pkg/ezapp/serviceset.go and its options.  The service
    list is a Go slice, so a nil list and an empty one are told apart. */
module EzappServiceSet {
  import opened Base

  datatype Service = Service(id: nat)

  /** A `func() error` cleanup value. */
  datatype CleanupFunc = CleanupFunc(id: nat)

  datatype ServiceSet = ServiceSet(services: Slice<Service>, cleanupFunc: Option<CleanupFunc>)

  type ServiceSetOption = ServiceSet -> ServiceSet

  /** `WithCleanupFunc(cleanup)`: stores the function as given, nil included,
      and touches nothing else; applying it twice is applying it once. */
  function WithCleanupFunc(cleanup: Option<CleanupFunc>): (opt: ServiceSetOption)
    ensures forall s: ServiceSet :: opt(s).cleanupFunc == cleanup && opt(s).services == s.services
    ensures forall s: ServiceSet :: opt(opt(s)) == opt(s)
  {
    (s: ServiceSet) => s.(cleanupFunc := cleanup)
  }

  /** `WithServices(services...)`: Go's `append`, so the new services follow
      the old ones in order, appending none leaves the set as it was, and the
      cleanup is not touched. */
  function WithServices(services: seq<Service>): (opt: ServiceSetOption)
    ensures forall s: ServiceSet :: opt(s).services.Items() == s.services.Items() + services
    ensures forall s: ServiceSet :: opt(s).cleanupFunc == s.cleanupFunc
    ensures forall s: ServiceSet :: s.services.Make? ==> opt(s).services.Make?
    ensures services == [] ==> forall s: ServiceSet :: opt(s) == s
  {
    (s: ServiceSet) => s.(services := Append(s.services, services))
  }

  /** `NewServiceSet(opts...)`: the options applied, left to right, to a set
      with an empty non-nil service list and no cleanup. */
  function NewServiceSet(opts: seq<ServiceSetOption>): ServiceSet {
    ApplyAll(ServiceSet(Make([]), None), opts)
  }

  /** No options: no services (but a non-nil list) and a nil cleanup. */
  lemma NewServiceSetEmpty()
    ensures NewServiceSet([]) == ServiceSet(Make([]), None)
  {
  }

  function ServicesOptions(xss: seq<seq<Service>>): (opts: seq<ServiceSetOption>)
    ensures |opts| == |xss|
  {
    seq(|xss|, i requires 0 <= i < |xss| => WithServices(xss[i]))
  }

  /** Several `WithServices` calls accumulate in call order, the list stays
      non-nil, and the cleanup is untouched. */
  lemma {:induction false} WithServicesAccumulate(s: ServiceSet, xss: seq<seq<Service>>)
    requires s.services.Make?
    ensures ApplyAll(s, ServicesOptions(xss)).services == Make(s.services.Items() + Flatten(xss))
    ensures |ApplyAll(s, ServicesOptions(xss)).services.Items()| == |s.services.Items()| + SumLengths(xss)
    ensures ApplyAll(s, ServicesOptions(xss)).cleanupFunc == s.cleanupFunc
    decreases |xss|
  {
    if xss == [] {
      assert s.services.Items() + [] == s.services.Items();
    } else {
      var opts := ServicesOptions(xss);
      assert opts[1..] == ServicesOptions(xss[1..]);
      var s' := WithServices(xss[0])(s);
      WithServicesAccumulate(s', xss[1..]);
      assert s.services.Items() + xss[0] + Flatten(xss[1..]) == s.services.Items() + Flatten(xss);
    }
  }
}
