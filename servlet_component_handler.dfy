/**
  ServletComponentHandler, the base of the handlers for @WebServlet,
  @WebFilter and @WebListener: the annotation type a handler recognises, the
  extraction of URL patterns and init parameters, and the gate in front of
  the subclass's doHandle.
*/
module ServletComponentHandler {
  import opened Wrappers
  import opened Beans

  /** The annotation types the handlers are built for, and any other. */
  datatype AnnotationType = WebServlet | WebFilter | WebListener | OtherAnnotation(className: ClassName)

  /** One @WebInitParam. */
  datatype InitParam = InitParam(name: string, value: string)

  /** The attributes of one annotation occurrence that the base class reads. */
  datatype AnnotationAttributes = AnnotationAttributes(value: seq<string>, urlPatterns: seq<string>, initParams: seq<InitParam>)

  /**
    A scanned candidate definition. isAnnotated says it is an
    AnnotatedBeanDefinition; annotations gives getAnnotationAttributes for each
    annotation type it carries (a missing key is the source's null).
  */
  datatype Candidate = Candidate(className: ClassName, isAnnotated: bool, annotations: map<AnnotationType, AnnotationAttributes>)

  /** AnnotationTypeFilter: a candidate passes when it carries the annotation type. */
  datatype TypeFilter = AnnotationTypeFilter(annotationType: AnnotationType)

  predicate Matches(filter: TypeFilter, candidate: Candidate) {
    filter.annotationType in candidate.annotations
  }

  /** The final fields of a handler. */
  datatype Handler = Handler(annotationType: AnnotationType, typeFilter: TypeFilter)

  /** The protected constructor: the type filter recognises exactly the handler's annotation type. */
  function NewHandler(annotationType: AnnotationType): (h: Handler)
    ensures h.annotationType == annotationType
    ensures forall c :: Matches(h.typeFilter, c) <==> annotationType in c.annotations
  {
    Handler(annotationType, AnnotationTypeFilter(annotationType))
  }

  /** The exceptions a handler raises. */
  datatype Failure =
    | UrlPatternsAndValueMutuallyExclusive  // the IllegalStateException of extractUrlPatterns
    | HandlerFailure(description: string)   // whatever a concrete doHandle throws

  /** What a concrete doHandle leaves in the registry, and the exception it threw, if any. */
  datatype Effect = Effect(definitions: Definitions, failure: Option<Failure>)

  /** The abstract doHandle of the concrete handlers, which are not part of this model. */
  type DoHandle = (Handler, AnnotationAttributes, Candidate, Definitions) -> Effect

  /**
    extractUrlPatterns: urlPatterns and value exclude each other; the one
    that is set is the result, and neither being set gives no patterns.
  */
  function ExtractUrlPatterns(attributes: AnnotationAttributes): (r: Result<seq<string>, Failure>)
    ensures r.Failure? <==> |attributes.urlPatterns| > 0 && |attributes.value| > 0
    ensures r.Failure? ==> r.error == UrlPatternsAndValueMutuallyExclusive
    ensures r.Success? ==> r.value == attributes.urlPatterns + attributes.value
    ensures r.Success? && |attributes.urlPatterns| > 0 ==> r.value == attributes.urlPatterns
  {
    var value := attributes.value;
    var urlPatterns := attributes.urlPatterns;
    if |urlPatterns| > 0 then
      if |value| == 0 then Success(urlPatterns) else Failure(UrlPatternsAndValueMutuallyExclusive)
    else Success(value)
  }

  /** The names of the init parameters. */
  function Names(initParams: seq<InitParam>): set<string> {
    set p | p in initParams :: p.name
  }

  /** No entry after position i has the same name as entry i. */
  predicate LastWithName(initParams: seq<InitParam>, i: int)
    requires 0 <= i < |initParams|
  {
    forall j :: i < j < |initParams| ==> initParams[j].name != initParams[i].name
  }

  /** There are no more distinct names than entries. */
  lemma {:induction false} NamesBound(initParams: seq<InitParam>)
    ensures |Names(initParams)| <= |initParams|
    decreases |initParams|
  {
    if initParams != [] {
      var n := |initParams|;
      var init := initParams[..n - 1];
      assert initParams == init + [initParams[n - 1]];
      assert Names(initParams) == Names(init) + {initParams[n - 1].name};
      NamesBound(init);
    }
  }

  /**
    extractInitParameters: every @WebInitParam name maps to a value, the last
    entry with a name wins, and there are no other keys.
  */
  method ExtractInitParameters(attributes: AnnotationAttributes) returns (initParameters: map<string, string>)
    ensures initParameters.Keys == Names(attributes.initParams)
    ensures forall i :: 0 <= i < |attributes.initParams| && LastWithName(attributes.initParams, i) ==>
      initParameters[attributes.initParams[i].name] == attributes.initParams[i].value
    ensures |initParameters| <= |attributes.initParams|
  {
    var initParams := attributes.initParams;
    initParameters := map[];
    for k := 0 to |initParams|
      invariant initParameters.Keys == Names(initParams[..k])
      invariant forall i :: 0 <= i < k && (forall j :: i < j < k ==> initParams[j].name != initParams[i].name) ==>
        initParameters[initParams[i].name] == initParams[i].value
    {
      assert initParams[..k + 1] == initParams[..k] + [initParams[k]];
      assert Names(initParams[..k + 1]) == Names(initParams[..k]) + {initParams[k].name};
      var name := initParams[k].name;
      var value := initParams[k].value;
      initParameters := initParameters[name := value];
    }
    assert initParams[..|initParams|] == initParams;
    NamesBound(initParams);
  }

  /** What handle does to the registry: doHandle when the candidate carries the annotation, nothing otherwise. */
  function HandleEffect(handler: Handler, candidate: Candidate, defs: Definitions, doHandle: DoHandle): Effect {
    if handler.annotationType in candidate.annotations then
      doHandle(handler, candidate.annotations[handler.annotationType], candidate, defs)
    else Effect(defs, None)
  }

  /** handle: calls doHandle exactly when the candidate carries the handler's annotation. */
  method Handle(handler: Handler, candidate: Candidate, registry: Registry, doHandle: DoHandle) returns (failure: Option<Failure>)
    modifies registry
    ensures handler.annotationType !in candidate.annotations ==>
      failure == None && registry.definitions == old(registry.definitions)
    ensures handler.annotationType in candidate.annotations ==>
      var e := doHandle(handler, candidate.annotations[handler.annotationType], candidate, old(registry.definitions));
      registry.definitions == e.definitions && failure == e.failure
    ensures Effect(registry.definitions, failure) == HandleEffect(handler, candidate, old(registry.definitions), doHandle)
  {
    if handler.annotationType in candidate.annotations {
      var attributes := candidate.annotations[handler.annotationType];
      var effect := doHandle(handler, attributes, candidate, registry.definitions);
      registry.definitions := effect.definitions;
      failure := effect.failure;
    } else {
      failure := None;
    }
  }
}
