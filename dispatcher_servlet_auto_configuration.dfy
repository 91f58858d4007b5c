/**
  The two conditions that guard the default DispatcherServlet and its
  registration bean, the registration bean the auto-configuration builds, and
  the two slots the conditions fill once every user definition is registered.
*/
module DispatcherServletAutoConfiguration {
  import opened Wrappers
  import opened Beans

  /** The bean name of the DispatcherServlet mapped to the root URL. */
  const DEFAULT_DISPATCHER_SERVLET_BEAN_NAME: BeanName := "dispatcherServlet"

  /** The bean name of the ServletRegistrationBean for that DispatcherServlet. */
  const DEFAULT_DISPATCHER_SERVLET_REGISTRATION_BEAN_NAME: BeanName := "dispatcherServletRegistration"

  /** ConditionOutcome without its diagnostic message. */
  datatype ConditionOutcome = Match | NoMatch

  /**
    DefaultDispatcherServletCondition.getMatchOutcome: the default servlet is
    provisioned only when its canonical name is free. Other DispatcherServlet
    beans under other names do not block it.
  */
  function DefaultDispatcherServletCondition(v: BeanFactoryView): (o: ConditionOutcome)
    ensures o == Match <==>
      DEFAULT_DISPATCHER_SERVLET_BEAN_NAME !in v.namesForType(DispatcherServletType) &&
      !v.containsBean(DEFAULT_DISPATCHER_SERVLET_BEAN_NAME)
    ensures Consistent(v) ==> (o == Match <==> !v.containsBean(DEFAULT_DISPATCHER_SERVLET_BEAN_NAME))
  {
    var dispatchServletBeans := v.namesForType(DispatcherServletType);
    if DEFAULT_DISPATCHER_SERVLET_BEAN_NAME in dispatchServletBeans then NoMatch
    else if v.containsBean(DEFAULT_DISPATCHER_SERVLET_BEAN_NAME) then NoMatch
    else if dispatchServletBeans == {} then Match
    else Match
  }

  /** First half of DispatcherServletRegistrationCondition: the canonical servlet name is not held by a non-DispatcherServlet. */
  function CheckDefaultDispatcherName(v: BeanFactoryView): (o: ConditionOutcome)
    ensures o == NoMatch <==>
      v.containsBean(DEFAULT_DISPATCHER_SERVLET_BEAN_NAME) &&
      DEFAULT_DISPATCHER_SERVLET_BEAN_NAME !in v.namesForType(DispatcherServletType)
  {
    var servlets := v.namesForType(DispatcherServletType);
    var containsDispatcherBean := v.containsBean(DEFAULT_DISPATCHER_SERVLET_BEAN_NAME);
    if containsDispatcherBean && DEFAULT_DISPATCHER_SERVLET_BEAN_NAME !in servlets then NoMatch
    else Match
  }

  /**
    Second half of DispatcherServletRegistrationCondition: the canonical
    registration name is free. Registration beans under other names do not block it.
  */
  function CheckServletRegistration(v: BeanFactoryView): (o: ConditionOutcome)
    ensures o == Match <==>
      DEFAULT_DISPATCHER_SERVLET_REGISTRATION_BEAN_NAME !in v.namesForType(ServletRegistrationBeanType) &&
      !v.containsBean(DEFAULT_DISPATCHER_SERVLET_REGISTRATION_BEAN_NAME)
    ensures Consistent(v) ==> (o == Match <==> !v.containsBean(DEFAULT_DISPATCHER_SERVLET_REGISTRATION_BEAN_NAME))
  {
    var registrations := v.namesForType(ServletRegistrationBeanType);
    var containsDispatcherRegistrationBean := v.containsBean(DEFAULT_DISPATCHER_SERVLET_REGISTRATION_BEAN_NAME);
    if registrations == {} then
      if containsDispatcherRegistrationBean then NoMatch else Match
    else if DEFAULT_DISPATCHER_SERVLET_REGISTRATION_BEAN_NAME in registrations then NoMatch
    else if containsDispatcherRegistrationBean then NoMatch
    else Match
  }

  /**
    DispatcherServletRegistrationCondition.getMatchOutcome: the canonical
    servlet name is not taken by a non-DispatcherServlet, and the canonical
    registration name is free.
  */
  function DispatcherServletRegistrationCondition(v: BeanFactoryView): (o: ConditionOutcome)
    ensures o == Match <==>
      (v.containsBean(DEFAULT_DISPATCHER_SERVLET_BEAN_NAME) ==>
         DEFAULT_DISPATCHER_SERVLET_BEAN_NAME in v.namesForType(DispatcherServletType)) &&
      DEFAULT_DISPATCHER_SERVLET_REGISTRATION_BEAN_NAME !in v.namesForType(ServletRegistrationBeanType) &&
      !v.containsBean(DEFAULT_DISPATCHER_SERVLET_REGISTRATION_BEAN_NAME)
    ensures Consistent(v) ==> (o == Match <==>
      (v.containsBean(DEFAULT_DISPATCHER_SERVLET_BEAN_NAME) ==>
         DEFAULT_DISPATCHER_SERVLET_BEAN_NAME in v.namesForType(DispatcherServletType)) &&
      !v.containsBean(DEFAULT_DISPATCHER_SERVLET_REGISTRATION_BEAN_NAME))
    ensures CheckDefaultDispatcherName(v) == NoMatch ==> o == NoMatch
    ensures CheckDefaultDispatcherName(v) == Match ==> o == CheckServletRegistration(v)
  {
    var outcome := CheckDefaultDispatcherName(v);
    if outcome != Match then outcome
    else CheckServletRegistration(v)
  }

  /** javax.servlet.MultipartConfigElement. */
  datatype MultipartConfigElement = MultipartConfigElement(location: string, maxFileSize: int, maxRequestSize: int, fileSizeThreshold: int)

  /**
    The settings of a DispatcherServletRegistrationBean that the auto-configuration
    touches; servlet is the bean name of the DispatcherServlet it registers.
  */
  datatype DispatcherServletRegistrationBean = DispatcherServletRegistrationBean(
    servlet: BeanName, path: string, name: Option<string>, loadOnStartup: int, multipartConfig: Option<MultipartConfigElement>)

  /**
    DispatcherServletRegistrationConfiguration.dispatcherServletRegistration:
    the registration wraps the injected servlet, is always named after the
    default servlet, and a multipart configuration is set only when the
    provider had one.
  */
  function DispatcherServletRegistration(dispatcherServlet: BeanName, servletPath: string, loadOnStartup: int,
                                         multipartConfig: Option<MultipartConfigElement>)
    : (r: DispatcherServletRegistrationBean)
    ensures r.servlet == dispatcherServlet
    ensures r.name == Some(DEFAULT_DISPATCHER_SERVLET_BEAN_NAME)
    ensures r.path == servletPath && r.loadOnStartup == loadOnStartup
    ensures r.multipartConfig.Some? <==> multipartConfig.Some?
    ensures multipartConfig.Some? ==> r.multipartConfig == multipartConfig
  {
    // a fresh registration bean has no name, load-on-startup -1 and no multipart configuration
    var registration := DispatcherServletRegistrationBean(dispatcherServlet, servletPath, None, -1, None);
    var registration := registration.(name := Some(DEFAULT_DISPATCHER_SERVLET_BEAN_NAME));
    var registration := registration.(loadOnStartup := loadOnStartup);
    if multipartConfig.Some? then registration.(multipartConfig := multipartConfig) else registration
  }

  /** The definition the dispatcherServlet() bean method contributes. */
  const DispatcherServletDefinition := BeanDefinition(DispatcherServletType, RoleApplication, None)

  /** The definition the dispatcherServletRegistration() bean method contributes. */
  const DispatcherServletRegistrationDefinition := BeanDefinition(DispatcherServletRegistrationBeanType, RoleApplication, None)

  /** The canonical servlet name is taken by a bean that is not a DispatcherServlet. */
  predicate DispatcherNameHeldByOther(defs: Definitions) {
    DEFAULT_DISPATCHER_SERVLET_BEAN_NAME in defs && defs[DEFAULT_DISPATCHER_SERVLET_BEAN_NAME].beanType != DispatcherServletType
  }

  /** The canonical servlet name is taken by a DispatcherServlet. */
  predicate DispatcherNameHeldByDispatcher(defs: Definitions) {
    DEFAULT_DISPATCHER_SERVLET_BEAN_NAME in defs && defs[DEFAULT_DISPATCHER_SERVLET_BEAN_NAME].beanType == DispatcherServletType
  }

  /** On a registry, the servlet-name half of Stage B fails exactly when a non-DispatcherServlet holds the name. */
  lemma CheckDefaultDispatcherNameOfDefs(defs: Definitions)
    ensures CheckDefaultDispatcherName(ViewOf(defs)) == NoMatch <==> DispatcherNameHeldByOther(defs)
  {
  }

  /**
    The servlet slot, filled after all user definitions are registered: the
    default is added exactly when its name is free, and nothing else changes.
  */
  function ProvisionDispatcherServlet(defs: Definitions): (r: Definitions)
    ensures DEFAULT_DISPATCHER_SERVLET_BEAN_NAME !in defs ==>
      r == defs[DEFAULT_DISPATCHER_SERVLET_BEAN_NAME := DispatcherServletDefinition]
    ensures DEFAULT_DISPATCHER_SERVLET_BEAN_NAME in defs ==> r == defs
  {
    if DefaultDispatcherServletCondition(ViewOf(defs)) == Match then
      defs[DEFAULT_DISPATCHER_SERVLET_BEAN_NAME := DispatcherServletDefinition]
    else defs
  }

  /**
    @ConditionalOnBean(value = DispatcherServlet.class, name = "dispatcherServlet")
    on the registration bean method: some DispatcherServlet is defined, and
    the canonical servlet name is claimed.
  */
  predicate RegistrationBeanGate(defs: Definitions) {
    NamesForType(defs, DispatcherServletType) != {} && DEFAULT_DISPATCHER_SERVLET_BEAN_NAME in defs
  }

  /**
    The registration slot: Stage B guards the configuration class and the
    bean gate guards the bean method. Together the default registration is
    added exactly when its name is free and a DispatcherServlet holds the
    canonical servlet name.
  */
  function ProvisionDispatcherServletRegistration(defs: Definitions): (r: Definitions)
    ensures DispatcherNameHeldByDispatcher(defs) && DEFAULT_DISPATCHER_SERVLET_REGISTRATION_BEAN_NAME !in defs ==>
      r == defs[DEFAULT_DISPATCHER_SERVLET_REGISTRATION_BEAN_NAME := DispatcherServletRegistrationDefinition]
    ensures !DispatcherNameHeldByDispatcher(defs) || DEFAULT_DISPATCHER_SERVLET_REGISTRATION_BEAN_NAME in defs ==> r == defs
  {
    var v := ViewOf(defs);
    CheckDefaultDispatcherNameOfDefs(defs);
    if DispatcherServletRegistrationCondition(v) == Match && RegistrationBeanGate(defs) then
      defs[DEFAULT_DISPATCHER_SERVLET_REGISTRATION_BEAN_NAME := DispatcherServletRegistrationDefinition]
    else defs
  }

  /**
    Both slots in the order the program fixes: the registration
    configuration imports the servlet configuration, so the servlet slot is
    filled first. The canonical servlet always ends up claimed; the default
    registration is added exactly when its name is free and no
    non-DispatcherServlet holds the servlet name; user definitions are kept.
  */
  function ProvisionDefaultSlots(defs: Definitions): (r: Definitions)
    ensures r.Keys == defs.Keys + {DEFAULT_DISPATCHER_SERVLET_BEAN_NAME} +
      (if DEFAULT_DISPATCHER_SERVLET_REGISTRATION_BEAN_NAME !in defs && !DispatcherNameHeldByOther(defs)
       then {DEFAULT_DISPATCHER_SERVLET_REGISTRATION_BEAN_NAME} else {})
    ensures forall n :: n in defs ==> r[n] == defs[n]
    ensures DEFAULT_DISPATCHER_SERVLET_BEAN_NAME !in defs ==> r[DEFAULT_DISPATCHER_SERVLET_BEAN_NAME] == DispatcherServletDefinition
    ensures DEFAULT_DISPATCHER_SERVLET_REGISTRATION_BEAN_NAME in r.Keys - defs.Keys ==>
      r[DEFAULT_DISPATCHER_SERVLET_REGISTRATION_BEAN_NAME] == DispatcherServletRegistrationDefinition
  {
    var withServlet := ProvisionDispatcherServlet(defs);
    assert DispatcherNameHeldByDispatcher(withServlet) <==> !DispatcherNameHeldByOther(defs);
    ProvisionDispatcherServletRegistration(withServlet)
  }

  /** After the servlet slot is filled, the bean gate holds whenever Stage B matches, so it never changes the outcome. */
  lemma RegistrationBeanGateRedundant(defs: Definitions)
    ensures var withServlet := ProvisionDispatcherServlet(defs);
      DispatcherServletRegistrationCondition(ViewOf(withServlet)) == Match ==> RegistrationBeanGate(withServlet)
  {
    var withServlet := ProvisionDispatcherServlet(defs);
    assert DEFAULT_DISPATCHER_SERVLET_BEAN_NAME in withServlet;
    CheckDefaultDispatcherNameOfDefs(withServlet);
  }

  /** In the opposite order the registration slot sees no servlet: on an empty registry no registration is added. */
  lemma StagesOrderMatters()
    ensures ProvisionDispatcherServlet(ProvisionDispatcherServletRegistration(map[])) != ProvisionDefaultSlots(map[])
  {
    assert DEFAULT_DISPATCHER_SERVLET_REGISTRATION_BEAN_NAME in ProvisionDefaultSlots(map[]);
    assert ProvisionDispatcherServlet(ProvisionDispatcherServletRegistration(map[])).Keys == {DEFAULT_DISPATCHER_SERVLET_BEAN_NAME};
  }

  /**
    When Stage A matches, exactly one DispatcherServlet is added, under the
    canonical name, and a second evaluation no longer matches.
  */
  lemma DispatcherServletProvisionedOnce(defs: Definitions)
    requires DefaultDispatcherServletCondition(ViewOf(defs)) == Match
    ensures var r := ProvisionDispatcherServlet(defs);
      && r.Keys == defs.Keys + {DEFAULT_DISPATCHER_SERVLET_BEAN_NAME}
      && NamesForType(r, DispatcherServletType) ==
           NamesForType(defs, DispatcherServletType) + {DEFAULT_DISPATCHER_SERVLET_BEAN_NAME}
      && DefaultDispatcherServletCondition(ViewOf(r)) == NoMatch
      && ProvisionDispatcherServlet(r) == r
  {
  }

  /**
    When Stage B and the bean gate pass beside custom registration beans, the
    default is added next to them, and a second evaluation no longer matches.
  */
  lemma RegistrationProvisionedBesideCustom(defs: Definitions)
    requires DispatcherServletRegistrationCondition(ViewOf(defs)) == Match && RegistrationBeanGate(defs)
    ensures var r := ProvisionDispatcherServletRegistration(defs);
      && r.Keys == defs.Keys + {DEFAULT_DISPATCHER_SERVLET_REGISTRATION_BEAN_NAME}
      && NamesForType(r, ServletRegistrationBeanType) ==
           NamesForType(defs, ServletRegistrationBeanType) + {DEFAULT_DISPATCHER_SERVLET_REGISTRATION_BEAN_NAME}
      && DispatcherServletRegistrationCondition(ViewOf(r)) == NoMatch
      && ProvisionDispatcherServletRegistration(r) == r
  {
  }
}
