/**
  The shared bean registry that every piece of the model reads or changes: bean
  names, the few Java types the core asks about, bean definitions, and the two
  read-only queries that conditions put to a bean factory.
*/
module Beans {
  import opened Wrappers

  type BeanName = string

  /** A fully qualified class name, split at its last dot (ClassUtils.getPackageName is the first half). */
  datatype ClassName = ClassName(packageName: string, simpleName: string)

  /** The bean types the core distinguishes; everything else is OtherType. */
  datatype BeanType =
    | DispatcherServletType
    | ServletRegistrationBeanType
    | DispatcherServletRegistrationBeanType
    | ServletComponentRegisteringPostProcessorType
    | OtherType(className: ClassName)

  /** Java assignability: DispatcherServletRegistrationBean extends ServletRegistrationBean. */
  predicate IsAssignable(t: BeanType, target: BeanType) {
    t == target || (t == DispatcherServletRegistrationBeanType && target == ServletRegistrationBeanType)
  }

  /** BeanDefinition.ROLE_APPLICATION, ROLE_SUPPORT and ROLE_INFRASTRUCTURE. */
  datatype Role = RoleApplication | RoleSupport | RoleInfrastructure

  /**
    A bean definition: its type, its role and, when it has one, the generic
    constructor argument of type Set<String> (the packages to scan).
  */
  datatype BeanDefinition = BeanDefinition(beanType: BeanType, role: Role, packagesArgument: Option<seq<string>>)

  type Definitions = map<BeanName, BeanDefinition>

  /** The container's BeanDefinitionRegistry: a name-to-definition map changed in place. */
  class Registry {
    var definitions: Definitions

    constructor (initial: Definitions)
      ensures definitions == initial
    {
      definitions := initial;
    }

    predicate ContainsBeanDefinition(name: BeanName)
      reads this
    {
      name in definitions
    }

    /** registerBeanDefinition under a name that is not yet taken. */
    method RegisterBeanDefinition(name: BeanName, definition: BeanDefinition)
      requires name !in definitions
      modifies this
      ensures definitions == old(definitions)[name := definition]
    {
      definitions := definitions[name := definition];
    }

    function View(): BeanFactoryView
      reads this
    {
      ViewOf(definitions)
    }
  }

  /**
    What a condition may ask of a ConfigurableListableBeanFactory:
    getBeanNamesForType(type, false, false) and containsBean(name).
  */
  datatype BeanFactoryView = BeanFactoryView(namesForType: BeanType -> set<BeanName>, containsBean: BeanName -> bool)

  /** Every name reported for a type is a name the factory contains. */
  ghost predicate Consistent(v: BeanFactoryView) {
    forall t, n :: n in v.namesForType(t) ==> v.containsBean(n)
  }

  /** The view of a registry that holds exactly the given definitions. */
  function ViewOf(defs: Definitions): (v: BeanFactoryView)
    ensures Consistent(v)
    ensures forall n :: v.containsBean(n) <==> n in defs
  {
    BeanFactoryView(
      t => (set n | n in defs && IsAssignable(defs[n].beanType, t)),
      n => n in defs)
  }

  /** The names of the definitions whose type is assignable to t. */
  function NamesForType(defs: Definitions, t: BeanType): set<BeanName> {
    ViewOf(defs).namesForType(t)
  }
}
