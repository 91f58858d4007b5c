/**
  ServletComponentRegisteringPostProcessor: when the application context is a
  web context that has no servlet context yet, scan every package and hand
  each annotated candidate to the servlet, filter and listener handlers, in
  that order.
*/
module RegisteringPostProcessor {
  import opened Wrappers
  import opened Beans
  import opened ServletComponentHandler

  /** HANDLERS: the servlet, filter and listener handlers; a const, so never changed. */
  const HANDLERS: seq<Handler> := [NewHandler(WebServlet), NewHandler(WebFilter), NewHandler(WebListener)]

  /** The handler list: three handlers, servlet, filter and listener, each recognising its own annotation. */
  lemma HandlersInOrder()
    ensures |HANDLERS| == 3
    ensures HANDLERS[0].annotationType == WebServlet
    ensures HANDLERS[1].annotationType == WebFilter
    ensures HANDLERS[2].annotationType == WebListener
    ensures forall i, c :: 0 <= i < 3 ==> (Matches(HANDLERS[i].typeFilter, c) <==> HANDLERS[i].annotationType in c.annotations)
  {
  }

  /** A ClassPathScanningCandidateComponentProvider built without default filters. */
  datatype ComponentProvider = ComponentProvider(includeFilters: seq<TypeFilter>)

  /** A scanned definition is a candidate when one include filter matches it. */
  predicate IsCandidateComponent(provider: ComponentProvider, candidate: Candidate) {
    exists i :: 0 <= i < |provider.includeFilters| && Matches(provider.includeFilters[i], candidate)
  }

  /** The provider with one include filter per handler, in handler order. */
  function HandlersProvider(): ComponentProvider {
    ComponentProvider(seq(|HANDLERS|, i requires 0 <= i < |HANDLERS| => HANDLERS[i].typeFilter))
  }

  /** createComponentProvider: one include filter per handler, so the candidates are the union of what the handlers recognise. */
  method CreateComponentProvider() returns (componentProvider: ComponentProvider)
    ensures |componentProvider.includeFilters| == |HANDLERS|
    ensures forall i :: 0 <= i < |HANDLERS| ==> componentProvider.includeFilters[i] == HANDLERS[i].typeFilter
    ensures forall c :: IsCandidateComponent(componentProvider, c) <==>
      WebServlet in c.annotations || WebFilter in c.annotations || WebListener in c.annotations
  {
    componentProvider := ComponentProvider([]);
    for i := 0 to |HANDLERS|
      invariant |componentProvider.includeFilters| == i
      invariant forall k :: 0 <= k < i ==> componentProvider.includeFilters[k] == HANDLERS[k].typeFilter
    {
      componentProvider := componentProvider.(includeFilters := componentProvider.includeFilters + [HANDLERS[i].typeFilter]);
    }
    forall c ensures IsCandidateComponent(componentProvider, c) <==>
      WebServlet in c.annotations || WebFilter in c.annotations || WebListener in c.annotations
    {
      if WebServlet in c.annotations { assert Matches(componentProvider.includeFilters[0], c); }
      if WebFilter in c.annotations { assert Matches(componentProvider.includeFilters[1], c); }
      if WebListener in c.annotations { assert Matches(componentProvider.includeFilters[2], c); }
    }
  }

  /** The structurally eligible definitions the classpath holds under each package; the scanning itself is not part of this model. */
  type Classpath = string -> seq<Candidate>

  /** The definitions of cs that pass the provider's include filters. */
  function FilterCandidates(provider: ComponentProvider, cs: seq<Candidate>): (r: seq<Candidate>)
    ensures forall c :: c in r <==> c in cs && IsCandidateComponent(provider, c)
    decreases |cs|
  {
    if cs == [] then []
    else
      var init := cs[..|cs| - 1];
      var last := cs[|cs| - 1];
      assert cs == init + [last];
      FilterCandidates(provider, init) + (if IsCandidateComponent(provider, last) then [last] else [])
  }

  /** findCandidateComponents on one package. */
  function FindCandidateComponents(provider: ComponentProvider, classpath: Classpath, packageToScan: string): seq<Candidate> {
    FilterCandidates(provider, classpath(packageToScan))
  }

  /** The candidates of every package, each package scanned once, in order. */
  function ScannedCandidates(provider: ComponentProvider, classpath: Classpath, packages: seq<string>): seq<Candidate>
    decreases |packages|
  {
    if packages == [] then []
    else
      ScannedCandidates(provider, classpath, packages[..|packages| - 1]) +
      FindCandidateComponents(provider, classpath, packages[|packages| - 1])
  }

  /** One call of handle. */
  datatype Invocation = Invocation(handler: Handler, candidate: Candidate)

  /** Every handler, in order, on one candidate. */
  function HandlerInvocations(candidate: Candidate): seq<Invocation> {
    seq(|HANDLERS|, i requires 0 <= i < |HANDLERS| => Invocation(HANDLERS[i], candidate))
  }

  /** The handle calls for a list of candidates: annotated ones get every handler, the others none. */
  function CandidateInvocations(cs: seq<Candidate>): seq<Invocation>
    decreases |cs|
  {
    if cs == [] then []
    else
      var last := cs[|cs| - 1];
      CandidateInvocations(cs[..|cs| - 1]) + (if last.isAnnotated then HandlerInvocations(last) else [])
  }

  /** The candidates that are AnnotatedBeanDefinitions, in order. */
  function Annotated(cs: seq<Candidate>): (r: seq<Candidate>)
    ensures forall c :: c in r <==> c in cs && c.isAnnotated
    decreases |cs|
  {
    if cs == [] then []
    else
      var last := cs[|cs| - 1];
      assert cs == cs[..|cs| - 1] + [last];
      Annotated(cs[..|cs| - 1]) + (if last.isAnnotated then [last] else [])
  }

  /** The handle calls of a whole pass. */
  function Invocations(provider: ComponentProvider, classpath: Classpath, packages: seq<string>): seq<Invocation> {
    CandidateInvocations(ScannedCandidates(provider, classpath, packages))
  }

  /** The registry after a series of handle calls; the first exception ends the series. */
  function Apply(invocations: seq<Invocation>, defs: Definitions, doHandle: DoHandle): Effect
    decreases |invocations|
  {
    if invocations == [] then Effect(defs, None)
    else
      var e := Apply(invocations[..|invocations| - 1], defs, doHandle);
      var last := invocations[|invocations| - 1];
      if e.failure.Some? then e else HandleEffect(last.handler, last.candidate, e.definitions, doHandle)
  }

  /** Running a + b is running a, then b unless a threw. */
  lemma {:induction false} ApplyConcat(a: seq<Invocation>, b: seq<Invocation>, defs: Definitions, doHandle: DoHandle)
    ensures Apply(a + b, defs, doHandle) ==
      var e := Apply(a, defs, doHandle);
      if e.failure.Some? then e else Apply(b, e.definitions, doHandle)
    decreases |b|
  {
    if b == [] {
      assert a + b == a;
    } else {
      var init := b[..|b| - 1];
      assert (a + b)[..|a + b| - 1] == a + init;
      assert (a + b)[|a + b| - 1] == b[|b| - 1];
      ApplyConcat(a, init, defs, doHandle);
    }
  }

  /** Once a prefix throws, the longer series ends in the same state. */
  lemma ApplyFailedPrefix(a: seq<Invocation>, b: seq<Invocation>, defs: Definitions, doHandle: DoHandle)
    requires a <= b && Apply(a, defs, doHandle).failure.Some?
    ensures Apply(b, defs, doHandle) == Apply(a, defs, doHandle)
  {
    assert b == a + b[|a|..];
    ApplyConcat(a, b[|a|..], defs, doHandle);
  }

  /** A longer list of candidates extends the handle calls of a shorter one. */
  lemma {:induction false} CandidateInvocationsPrefix(cs: seq<Candidate>, ds: seq<Candidate>)
    requires cs <= ds
    ensures CandidateInvocations(cs) <= CandidateInvocations(ds)
    decreases |ds|
  {
    if cs != ds {
      assert cs <= ds[..|ds| - 1];
      CandidateInvocationsPrefix(cs, ds[..|ds| - 1]);
    }
  }

  /** Scanning more packages extends the candidates of fewer packages. */
  lemma {:induction false} ScannedCandidatesPrefix(provider: ComponentProvider, classpath: Classpath, ps: seq<string>, qs: seq<string>)
    requires ps <= qs
    ensures ScannedCandidates(provider, classpath, ps) <= ScannedCandidates(provider, classpath, qs)
    decreases |qs|
  {
    if ps != qs {
      assert ps <= qs[..|qs| - 1];
      ScannedCandidatesPrefix(provider, classpath, ps, qs[..|qs| - 1]);
    }
  }

  /**
    The order of a pass: the k-th annotated candidate gets the servlet, filter
    and listener handler, at positions 3k, 3k+1 and 3k+2, and nothing else is called.
  */
  lemma {:induction false} CandidateInvocationsOrder(cs: seq<Candidate>)
    ensures |CandidateInvocations(cs)| == 3 * |Annotated(cs)|
    ensures forall k, i :: 0 <= k < |Annotated(cs)| && 0 <= i < 3 ==>
      CandidateInvocations(cs)[3 * k + i] == Invocation(HANDLERS[i], Annotated(cs)[k])
    decreases |cs|
  {
    if cs != [] {
      var init := cs[..|cs| - 1];
      var last := cs[|cs| - 1];
      CandidateInvocationsOrder(init);
      var before := Annotated(init);
      assert Annotated(cs) == before + (if last.isAnnotated then [last] else []);
      assert CandidateInvocations(cs) ==
        CandidateInvocations(init) + (if last.isAnnotated then HandlerInvocations(last) else []);
      forall k, i | 0 <= k < |Annotated(cs)| && 0 <= i < 3
        ensures CandidateInvocations(cs)[3 * k + i] == Invocation(HANDLERS[i], Annotated(cs)[k])
      {
        if k < |before| {
          assert Annotated(cs)[k] == before[k];
          assert CandidateInvocations(cs)[3 * k + i] == CandidateInvocations(init)[3 * k + i];
        } else {
          assert CandidateInvocations(cs)[3 * k + i] == HandlerInvocations(last)[i];
        }
      }
    }
  }

  /** Which definitions a pass hands to the handlers: those of the scanned packages that carry one of the three annotations. */
  lemma {:induction false} ScannedCandidatesMembership(classpath: Classpath, packages: seq<string>, c: Candidate)
    ensures c in ScannedCandidates(HandlersProvider(), classpath, packages) <==>
      (exists p :: p in packages && c in classpath(p)) &&
      (WebServlet in c.annotations || WebFilter in c.annotations || WebListener in c.annotations)
    decreases |packages|
  {
    var provider := HandlersProvider();
    assert IsCandidateComponent(provider, c) <==>
      WebServlet in c.annotations || WebFilter in c.annotations || WebListener in c.annotations
    by {
      if WebServlet in c.annotations { assert Matches(provider.includeFilters[0], c); }
      if WebFilter in c.annotations { assert Matches(provider.includeFilters[1], c); }
      if WebListener in c.annotations { assert Matches(provider.includeFilters[2], c); }
    }
    if packages != [] {
      var init := packages[..|packages| - 1];
      var last := packages[|packages| - 1];
      assert packages == init + [last];
      ScannedCandidatesMembership(classpath, init, c);
      if c in classpath(last) { assert last in packages; }
      if (exists p :: p in packages && c in classpath(p)) {
        var p :| p in packages && c in classpath(p);
        if p != last { assert p in init; }
      }
    }
  }

  /** javax.servlet.ServletContext, only its presence matters. */
  datatype ServletContext = ServletContext(contextPath: string)

  /** The application context, which is also the registry the handlers register into. */
  datatype ApplicationContext =
    | WebApplicationContext(servletContext: Option<ServletContext>, registry: Registry)
    | OtherApplicationContext(registry: Registry)

  class ServletComponentRegisteringPostProcessor {
    const packagesToScan: seq<string>
    var applicationContext: Option<ApplicationContext>

    /** The package set is fixed at construction; the application context arrives later. */
    constructor (packagesToScan: seq<string>)
      ensures this.packagesToScan == packagesToScan
      ensures applicationContext == None
    {
      this.packagesToScan := packagesToScan;
      applicationContext := None;
    }

    /** getPackagesToScan: the constructor's package set, unchanged. */
    function GetPackagesToScan(): seq<string> {
      packagesToScan
    }

    method SetApplicationContext(applicationContext: ApplicationContext)
      modifies this
      ensures this.applicationContext == Some(applicationContext)
    {
      this.applicationContext := Some(applicationContext);
    }

    /** isRunningInEmbeddedWebServer: a web application context whose servlet context is still null. */
    predicate IsRunningInEmbeddedWebServer()
      reads this
    {
      applicationContext.Some? &&
      applicationContext.value.WebApplicationContext? &&
      applicationContext.value.servletContext.None?
    }

    /**
      postProcessBeanFactory: a no-op outside an embedded web server;
      otherwise the registry ends as the pass's handle calls leave it.
    */
    method PostProcessBeanFactory(classpath: Classpath, doHandle: DoHandle) returns (failure: Option<Failure>)
      modifies if applicationContext.Some? then {applicationContext.value.registry} else {}
      ensures !IsRunningInEmbeddedWebServer() ==> failure == None
      ensures applicationContext.Some? && !IsRunningInEmbeddedWebServer() ==> unchanged(applicationContext.value.registry)
      ensures IsRunningInEmbeddedWebServer() ==>
        Effect(applicationContext.value.registry.definitions, failure) ==
        Apply(Invocations(HandlersProvider(), classpath, packagesToScan), old(applicationContext.value.registry.definitions), doHandle)
    {
      failure := None;
      if IsRunningInEmbeddedWebServer() {
        var registry := applicationContext.value.registry;
        var componentProvider := CreateComponentProvider();
        assert componentProvider == HandlersProvider();
        ghost var start := registry.definitions;
        ghost var all := Invocations(componentProvider, classpath, packagesToScan);
        for i := 0 to |packagesToScan|
          invariant failure == None
          invariant Apply(Invocations(componentProvider, classpath, packagesToScan[..i]), start, doHandle) ==
            Effect(registry.definitions, None)
        {
          ghost var before := Invocations(componentProvider, classpath, packagesToScan[..i]);
          ghost var found := FindCandidateComponents(componentProvider, classpath, packagesToScan[i]);
          assert packagesToScan[..i + 1][..i] == packagesToScan[..i];
          assert ScannedCandidates(componentProvider, classpath, packagesToScan[..i + 1]) ==
            ScannedCandidates(componentProvider, classpath, packagesToScan[..i]) + found;
          CandidateInvocationsConcat(ScannedCandidates(componentProvider, classpath, packagesToScan[..i]), found);
          failure := ScanPackage(componentProvider, packagesToScan[i], classpath, doHandle);
          ApplyConcat(before, CandidateInvocations(found), start, doHandle);
          if failure.Some? {
            ScannedCandidatesPrefix(componentProvider, classpath, packagesToScan[..i + 1], packagesToScan);
            CandidateInvocationsPrefix(ScannedCandidates(componentProvider, classpath, packagesToScan[..i + 1]),
                                       ScannedCandidates(componentProvider, classpath, packagesToScan));
            ApplyFailedPrefix(Invocations(componentProvider, classpath, packagesToScan[..i + 1]), all, start, doHandle);
            return;
          }
        }
        assert packagesToScan[..|packagesToScan|] == packagesToScan;
      }
    }

    /** scanPackage: every annotated candidate of one package goes to every handler. */
    method ScanPackage(componentProvider: ComponentProvider, packageToScan: string, classpath: Classpath, doHandle: DoHandle)
      returns (failure: Option<Failure>)
      requires applicationContext.Some?
      modifies applicationContext.value.registry
      ensures Effect(applicationContext.value.registry.definitions, failure) ==
        Apply(CandidateInvocations(FindCandidateComponents(componentProvider, classpath, packageToScan)),
              old(applicationContext.value.registry.definitions), doHandle)
    {
      var registry := applicationContext.value.registry;
      var candidates := FindCandidateComponents(componentProvider, classpath, packageToScan);
      ghost var start := registry.definitions;
      failure := None;
      for j := 0 to |candidates|
        invariant failure == None
        invariant Apply(CandidateInvocations(candidates[..j]), start, doHandle) == Effect(registry.definitions, None)
      {
        var candidate := candidates[j];
        CandidateInvocationsStep(candidates, j);
        if candidate.isAnnotated {
          ghost var done := CandidateInvocations(candidates[..j]);
          ghost var mid := registry.definitions;
          ghost var calls := HandlerInvocations(candidate);
          for k := 0 to |HANDLERS|
            invariant failure == None
            invariant Apply(calls[..k], mid, doHandle) == Effect(registry.definitions, None)
          {
            ApplyStep(calls, k, mid, doHandle);
            failure := Handle(HANDLERS[k], candidate, registry, doHandle);
            if failure.Some? {
              HandlerFailureEndsScan(candidates, j, k, start, doHandle);
              return;
            }
          }
          assert calls[..|HANDLERS|] == calls;
          ApplyConcat(done, calls, start, doHandle);
        } else {
          assert CandidateInvocations(candidates[..j]) + [] == CandidateInvocations(candidates[..j]);
        }
      }
      assert candidates[..|candidates|] == candidates;
    }
  }

  /** One more candidate adds its handle calls, if it is annotated. */
  lemma CandidateInvocationsStep(cs: seq<Candidate>, j: nat)
    requires j < |cs|
    ensures CandidateInvocations(cs[..j + 1]) ==
      CandidateInvocations(cs[..j]) + (if cs[j].isAnnotated then HandlerInvocations(cs[j]) else [])
  {
    assert cs[..j + 1][..j] == cs[..j];
  }

  /** One more handle call, after calls that did not throw. */
  lemma ApplyStep(calls: seq<Invocation>, k: nat, defs: Definitions, doHandle: DoHandle)
    requires k < |calls| && Apply(calls[..k], defs, doHandle).failure.None?
    ensures Apply(calls[..k + 1], defs, doHandle) ==
      HandleEffect(calls[k].handler, calls[k].candidate, Apply(calls[..k], defs, doHandle).definitions, doHandle)
  {
    assert calls[..k + 1][..k] == calls[..k];
  }

  /** A handler that throws on the j-th candidate ends the scan of its package in the state it left. */
  lemma HandlerFailureEndsScan(candidates: seq<Candidate>, j: nat, k: nat, start: Definitions, doHandle: DoHandle)
    requires j < |candidates| && candidates[j].isAnnotated && k < |HANDLERS|
    requires Apply(CandidateInvocations(candidates[..j]), start, doHandle).failure.None?
    requires Apply(HandlerInvocations(candidates[j])[..k + 1],
                   Apply(CandidateInvocations(candidates[..j]), start, doHandle).definitions, doHandle).failure.Some?
    ensures Apply(CandidateInvocations(candidates), start, doHandle) ==
      Apply(HandlerInvocations(candidates[j])[..k + 1],
            Apply(CandidateInvocations(candidates[..j]), start, doHandle).definitions, doHandle)
  {
    var done := CandidateInvocations(candidates[..j]);
    var calls := HandlerInvocations(candidates[j]);
    assert candidates[..j + 1][..j] == candidates[..j];
    assert CandidateInvocations(candidates[..j + 1]) == done + calls;
    ApplyConcat(done, calls[..k + 1], start, doHandle);
    assert done + calls[..k + 1] <= CandidateInvocations(candidates[..j + 1]);
    CandidateInvocationsPrefix(candidates[..j + 1], candidates);
    ApplyFailedPrefix(done + calls[..k + 1], CandidateInvocations(candidates), start, doHandle);
  }

  /** The handle calls of two lists of candidates, one after the other. */
  lemma {:induction false} CandidateInvocationsConcat(cs: seq<Candidate>, ds: seq<Candidate>)
    ensures CandidateInvocations(cs + ds) == CandidateInvocations(cs) + CandidateInvocations(ds)
    decreases |ds|
  {
    if ds == [] {
      assert cs + ds == cs;
    } else {
      var init := ds[..|ds| - 1];
      assert (cs + ds)[..|cs + ds| - 1] == cs + init;
      CandidateInvocationsConcat(cs, init);
    }
  }
}
