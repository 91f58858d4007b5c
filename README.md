# Servlet component scanning and the default DispatcherServlet slot

This project is a Dafny model of the deterministic registration logic in Spring Boot's servlet support.

- **Slot conditions.** `DispatcherServletAutoConfiguration` has two conditions that decide whether the container gets the default `dispatcherServlet` bean and its `dispatcherServletRegistration` bean. Each is a function over two read-only registry queries: the names of the beans of a type, and whether a name is claimed. Each function's contract gives the closed form of its decision. The two "slots" are each filled once every user definition is registered. Lemmas prove that each slot is filled once and that filling is idempotent. They also prove that the servlet slot must be filled first, which the registration configuration ensures by importing the servlet configuration.
- **Scan-request registrar.** `@ServletComponentScan` declarations go through `ServletComponentScanRegistrar`. It computes a package set, which is an insertion-ordered set without duplicates, like a `LinkedHashSet`. It then either registers the single infrastructure `servletComponentRegisteringPostProcessor` definition or merges the packages into the definition already registered. The registry is a `class` whose definition map the methods update in place. Lemmas prove:
  - the "exactly one definition" outcome;
  - union merging;
  - idempotence;
  - that the final set does not depend on declaration order.
- **Component handler base.** `ServletComponentHandler` covers:
  - URL-pattern extraction (`urlPatterns` and `value` exclude each other);
  - flattening `initParams` into a map, where the last entry wins;
  - the gate that calls the abstract `doHandle` only when the candidate carries the handler's annotation.
- **Registering post-processor.** `ServletComponentRegisteringPostProcessor` is a class with a fixed package set and a settable application context. Its pass does nothing unless the context is a web context with no servlet context yet. Otherwise it scans every package and gives each annotated candidate to the servlet, filter and listener handlers, in that order. The nested loops are proved against `Apply`, a fold of the handle calls that stops at the first exception.

Some parts stay abstract:
- The classpath scanner is a parameter `Classpath = string -> seq<Candidate>` that returns the eligible definitions of a package.
- A concrete handler's `doHandle` is a parameter `DoHandle`. It returns the new definitions and the exception it threw, if any.
- A bean factory as seen by a condition is a `BeanFactoryView`. It is a pair of functions: `getBeanNamesForType` and `containsBean`. `Consistent` states the assumption that typed names are claimed names. `ViewOf` builds a consistent view from a definitions map.

Files:
- `wrappers.dfy`: Option and Result.
- `linked_set.dfy`: `LinkedHashSet` as a sequence without duplicates.
- `beans.dfy`: bean types, definitions, the registry class and the factory view.
- `dispatcher_servlet_auto_configuration.dfy`, `servlet_component_scan_registrar.dfy`, `servlet_component_handler.dfy`, `registering_post_processor.dfy`: one per core source file.

## Model

| member | source | states |
|---|---|---|
| DispatcherServletAutoConfiguration.DefaultDispatcherServletCondition | spring-boot-project/spring-boot-autoconfigure/src/main/java/org/springframework/boot/autoconfigure/web/servlet/DispatcherServletAutoConfiguration.java:168-193 | Match exactly when "dispatcherServlet" is not among the DispatcherServlet-typed names and is not claimed. So a canonical DispatcherServlet blocks it, a non-dispatcher bean under that name blocks it, and other DispatcherServlets under other names do not. For a consistent view: Match iff the name is unclaimed. |
| DispatcherServletAutoConfiguration.CheckDefaultDispatcherNameOfDefs | spring-boot-project/spring-boot-autoconfigure/src/main/java/org/springframework/boot/autoconfigure/web/servlet/DispatcherServletAutoConfiguration.java:213-223 | On a registry, the servlet-name check fails exactly when "dispatcherServlet" is held by a bean that is not a DispatcherServlet. |
| DispatcherServletAutoConfiguration.CheckServletRegistration | spring-boot-project/spring-boot-autoconfigure/src/main/java/org/springframework/boot/autoconfigure/web/servlet/DispatcherServletAutoConfiguration.java:225-248 | Match exactly when "dispatcherServletRegistration" is neither a ServletRegistrationBean name nor claimed. This holds whether or not other registration beans exist. Consistent view: Match iff the name is unclaimed. |
| DispatcherServletAutoConfiguration.DispatcherServletRegistrationCondition | spring-boot-project/spring-boot-autoconfigure/src/main/java/org/springframework/boot/autoconfigure/web/servlet/DispatcherServletAutoConfiguration.java:202-211 | Short-circuits to NoMatch when the servlet-name check fails, and otherwise equals checkServletRegistration. Closed form: Match iff ("dispatcherServlet" claimed ⇒ it is a DispatcherServlet) and the registration name is free. |
| DispatcherServletAutoConfiguration.DispatcherServletRegistration | spring-boot-project/spring-boot-autoconfigure/src/main/java/org/springframework/boot/autoconfigure/web/servlet/DispatcherServletAutoConfiguration.java:147-159 | The registration wraps the injected servlet, is named "dispatcherServlet" and carries the configured path and load-on-startup. A multipart configuration is set iff one is available, and it is then that one. |
| DispatcherServletAutoConfiguration.ProvisionDispatcherServlet | spring-boot-project/spring-boot-autoconfigure/src/main/java/org/springframework/boot/autoconfigure/web/servlet/DispatcherServletAutoConfiguration.java:89-107 | The default servlet definition is added under its name exactly when the name is free. Otherwise the registry is unchanged. |
| DispatcherServletAutoConfiguration.ProvisionDispatcherServletRegistration | spring-boot-project/spring-boot-autoconfigure/src/main/java/org/springframework/boot/autoconfigure/web/servlet/DispatcherServletAutoConfiguration.java:127-147 | Stage B on the configuration class plus the bean gate on the bean method (a DispatcherServlet exists and "dispatcherServlet" is claimed). Together: the default registration definition is added exactly when its name is free and a DispatcherServlet holds "dispatcherServlet". Otherwise the registry is unchanged. |
| DispatcherServletAutoConfiguration.DispatcherServletProvisionedOnce | spring-boot-project/spring-boot-autoconfigure/src/main/java/org/springframework/boot/autoconfigure/web/servlet/DispatcherServletAutoConfiguration.java:168-193 | After a match, exactly one name is added: the canonical one, as a DispatcherServlet. Re-evaluation gives NoMatch, and provisioning again changes nothing. |
| DispatcherServletAutoConfiguration.RegistrationProvisionedBesideCustom | spring-boot-project/spring-boot-autoconfigure/src/main/java/org/springframework/boot/autoconfigure/web/servlet/DispatcherServletAutoConfiguration.java:225-248 | After Stage B and the bean gate pass, the default registration joins any custom ServletRegistrationBeans under exactly one new name. Re-evaluation gives NoMatch, and provisioning again changes nothing. |
| DispatcherServletAutoConfiguration.ProvisionDefaultSlots | spring-boot-project/spring-boot-autoconfigure/src/main/java/org/springframework/boot/autoconfigure/web/servlet/DispatcherServletAutoConfiguration.java:127-147 | Both slots in the order fixed by the import of the servlet configuration. "dispatcherServlet" always ends up claimed, the default registration is added exactly when its name is free and no non-DispatcherServlet holds the servlet name, and every user definition is kept. |
| DispatcherServletAutoConfiguration.RegistrationBeanGateRedundant | spring-boot-project/spring-boot-autoconfigure/src/main/java/org/springframework/boot/autoconfigure/web/servlet/DispatcherServletAutoConfiguration.java:146 | Once the servlet slot is filled, the bean gate holds whenever Stage B matches. |
| DispatcherServletAutoConfiguration.StagesOrderMatters | spring-boot-project/spring-boot-autoconfigure/src/main/java/org/springframework/boot/autoconfigure/web/servlet/DispatcherServletAutoConfiguration.java:131 | Filling the registration slot before the servlet slot gives a different registry: on an empty registry it adds no registration. |
| LinkedSet.Add | spring-boot-project/spring-boot/src/main/java/org/springframework/boot/web/servlet/ServletComponentScanRegistrar.java:98 | Adds the element to the set and appends it only when absent, keeping the earlier order and distinctness. |
| LinkedSet.AddAll | spring-boot-project/spring-boot/src/main/java/org/springframework/boot/web/servlet/ServletComponentScanRegistrar.java:95 | The result's elements are the union. The old contents stay a prefix, and distinctness is kept. |
| LinkedSet.AddAllDisjoint | spring-boot-project/spring-boot/src/main/java/org/springframework/boot/web/servlet/ServletComponentScanRegistrar.java:95 | Distinct elements that are all absent are appended in their own order. |
| LinkedSet.AddAllPresent | spring-boot-project/spring-boot/src/main/java/org/springframework/boot/web/servlet/ServletComponentScanRegistrar.java:66 | Adding elements that are all present leaves the set unchanged. |
| LinkedSet.AddAllIdempotent | spring-boot-project/spring-boot/src/main/java/org/springframework/boot/web/servlet/ServletComponentScanRegistrar.java:66 | Adding the same elements twice is adding them once. |
| Beans.Registry.RegisterBeanDefinition | spring-boot-project/spring-boot/src/main/java/org/springframework/boot/web/servlet/ServletComponentScanRegistrar.java:81 | Under a free name, the new map is the old one plus that one entry. |
| ServletComponentScanRegistrar.PackagesToScan | spring-boot-project/spring-boot/src/main/java/org/springframework/boot/web/servlet/ServletComponentScanRegistrar.java:93-105 | The result is distinct and never empty. If the attributes declare nothing, it is exactly the importing class's package. Otherwise its elements are basePackages ∪ packages of basePackageClasses, with basePackages first. |
| ServletComponentScanRegistrar.GetPackagesToScan | spring-boot-project/spring-boot/src/main/java/org/springframework/boot/web/servlet/ServletComponentScanRegistrar.java:84-106 | The loop fills the set to exactly PackagesToScan. |
| ServletComponentScanRegistrar.Register | spring-boot-project/spring-boot/src/main/java/org/springframework/boot/web/servlet/ServletComponentScanRegistrar.java:45-82 | Gives the registry after one declaration. Absent: exactly one new infrastructure definition holding the computed packages. Present: no new name, old packages ∪ new, other fields kept. Present without the Set argument: the failure. Other entries are untouched. |
| ServletComponentScanRegistrar.RegisterBeanDefinitions | spring-boot-project/spring-boot/src/main/java/org/springframework/boot/web/servlet/ServletComponentScanRegistrar.java:45-57 | The registry ends as Register says, or is unchanged with the failure reported. |
| ServletComponentScanRegistrar.UpdatePostProcessor | spring-boot-project/spring-boot/src/main/java/org/springframework/boot/web/servlet/ServletComponentScanRegistrar.java:59-69 | Replaces the existing definition's package argument by the merged set, or fails without change when there is none. |
| ServletComponentScanRegistrar.AddPostProcessor | spring-boot-project/spring-boot/src/main/java/org/springframework/boot/web/servlet/ServletComponentScanRegistrar.java:71-82 | Registers the infrastructure definition holding the packages under the fixed name. Nothing else changes. |
| ServletComponentScanRegistrar.RegisterIdempotent | spring-boot-project/spring-boot/src/main/java/org/springframework/boot/web/servlet/ServletComponentScanRegistrar.java:65-68 | Registering the same declaration twice gives the same registry as once. |
| ServletComponentScanRegistrar.RegisterAllUnion | spring-boot-project/spring-boot/src/main/java/org/springframework/boot/web/servlet/ServletComponentScanRegistrar.java:45-69 | Starting with no post-processor, several declarations leave exactly one infrastructure post-processor definition. Its package set is the union of all declared packages, and other entries are untouched. |
| ServletComponentScanRegistrar.RegisterAllOrderIndependent | spring-boot-project/spring-boot/src/main/java/org/springframework/boot/web/servlet/ServletComponentScanRegistrar.java:65-68 | Two series with the same declarations, in any order and with repeats, give the same names, the same other entries and the same package set. |
| ServletComponentHandler.NewHandler | spring-boot-project/spring-boot/src/main/java/org/springframework/boot/web/servlet/ServletComponentHandler.java:42-49 | The handler's type filter matches exactly the candidates that carry its annotation type. |
| ServletComponentHandler.ExtractUrlPatterns | spring-boot-project/spring-boot/src/main/java/org/springframework/boot/web/servlet/ServletComponentHandler.java:51-59 | Fails iff both urlPatterns and value are non-empty, with the mutual-exclusion error. Otherwise the result is urlPatterns when non-empty, else value, which may be empty. |
| ServletComponentHandler.NamesBound | spring-boot-project/spring-boot/src/main/java/org/springframework/boot/web/servlet/ServletComponentHandler.java:61-69 | There are no more distinct init-parameter names than entries. |
| ServletComponentHandler.ExtractInitParameters | spring-boot-project/spring-boot/src/main/java/org/springframework/boot/web/servlet/ServletComponentHandler.java:61-69 | The key set is exactly the set of names. Each name maps to the value of its last entry, and the map size is at most the number of entries. |
| ServletComponentHandler.HandleEffect | spring-boot-project/spring-boot/src/main/java/org/springframework/boot/web/servlet/ServletComponentHandler.java:71-81 | The functional form of handle: doHandle on the annotation's attributes when the candidate carries it, no change and no exception otherwise. Handle is proved equal to it, and Apply folds it. |
| ServletComponentHandler.Handle | spring-boot-project/spring-boot/src/main/java/org/springframework/boot/web/servlet/ServletComponentHandler.java:71-81 | Calls doHandle on the annotation's attributes iff the candidate carries the handler's annotation, taking over its registry and exception. Otherwise the registry is unchanged and nothing is thrown. |
| RegisteringPostProcessor.HandlersInOrder | spring-boot-project/spring-boot/src/main/java/org/springframework/boot/web/servlet/ServletComponentRegisteringPostProcessor.java:47-55 | The handler list is three handlers, servlet, filter and listener, in that order, each recognising exactly its own annotation. |
| RegisteringPostProcessor.CreateComponentProvider | spring-boot-project/spring-boot/src/main/java/org/springframework/boot/web/servlet/ServletComponentRegisteringPostProcessor.java:99-116 | One include filter per handler, in handler order. A definition is a candidate iff it carries @WebServlet, @WebFilter or @WebListener. |
| RegisteringPostProcessor.FilterCandidates | spring-boot-project/spring-boot/src/main/java/org/springframework/boot/web/servlet/ServletComponentRegisteringPostProcessor.java:82 | A definition is returned iff the scanner gave it and an include filter matches it. |
| RegisteringPostProcessor.ScannedCandidatesMembership | spring-boot-project/spring-boot/src/main/java/org/springframework/boot/web/servlet/ServletComponentRegisteringPostProcessor.java:72-74 | A pass's candidates are exactly the definitions of the scanned packages that carry one of the three annotations. |
| RegisteringPostProcessor.Annotated | spring-boot-project/spring-boot/src/main/java/org/springframework/boot/web/servlet/ServletComponentRegisteringPostProcessor.java:83 | The candidates handed to the handlers are exactly those that are AnnotatedBeanDefinitions. |
| RegisteringPostProcessor.CandidateInvocationsOrder | spring-boot-project/spring-boot/src/main/java/org/springframework/boot/web/servlet/ServletComponentRegisteringPostProcessor.java:82-90 | The handle calls are three per annotated candidate: servlet, filter, listener at positions 3k, 3k+1 and 3k+2. Non-annotated candidates get none. |
| RegisteringPostProcessor.ServletComponentRegisteringPostProcessor.constructor | spring-boot-project/spring-boot/src/main/java/org/springframework/boot/web/servlet/ServletComponentRegisteringPostProcessor.java:61-63 | Keeps the given package set, which is a const and so what getPackagesToScan returns. No context is set yet. |
| RegisteringPostProcessor.ServletComponentRegisteringPostProcessor.SetApplicationContext | spring-boot-project/spring-boot/src/main/java/org/springframework/boot/web/servlet/ServletComponentRegisteringPostProcessor.java:122-125 | Records the application context. |
| RegisteringPostProcessor.ServletComponentRegisteringPostProcessor.GetPackagesToScan | spring-boot-project/spring-boot/src/main/java/org/springframework/boot/web/servlet/ServletComponentRegisteringPostProcessor.java:118-120 | Returns the package set the constructor was given. It is a const field, so no method can change it. |
| RegisteringPostProcessor.ServletComponentRegisteringPostProcessor.IsRunningInEmbeddedWebServer | spring-boot-project/spring-boot/src/main/java/org/springframework/boot/web/servlet/ServletComponentRegisteringPostProcessor.java:94-97 | Holds exactly for a web application context whose servlet context is not set. It is the gate in the PostProcessBeanFactory contract. |
| RegisteringPostProcessor.ServletComponentRegisteringPostProcessor.PostProcessBeanFactory | spring-boot-project/spring-boot/src/main/java/org/springframework/boot/web/servlet/ServletComponentRegisteringPostProcessor.java:65-76 | Outside an embedded web server (a web context without a servlet context), it is a no-op: nothing thrown, registry unchanged. Otherwise the registry and exception are those of applying every handle call of the pass, package by package, stopping at the first exception. |
| RegisteringPostProcessor.ServletComponentRegisteringPostProcessor.ScanPackage | spring-boot-project/spring-boot/src/main/java/org/springframework/boot/web/servlet/ServletComponentRegisteringPostProcessor.java:78-92 | The registry and exception are those of the handle calls for the candidates of one package, stopping at the first exception. |

## Left out

- Condition messages: `ConditionMessage` text is diagnostic only, so an outcome is just Match or NoMatch.
- Framework annotations: the class-level `@ConditionalOnClass`, `@ConditionalOnWebApplication` and `@AutoConfigureAfter` are evaluated by framework code that is not part of this model.
- ProvisionDispatcherServletRegistration: `@ConditionalOnBean(value = DispatcherServlet.class, name = "dispatcherServlet")` is reduced to `RegistrationBeanGate` over the definitions map: some DispatcherServlet definition exists and the name is claimed. The framework's bean search (hierarchy strategy, factory beans) is not modelled.
- DispatcherServletRegistration: the servlet is passed as a bean name. How the container resolves the injected `DispatcherServlet` parameter is not modelled.
- `@Order(LOWEST_PRECEDENCE - 10)` is modelled only as the conditions seeing the final user definitions, through the provisioning functions.
- The bean methods' property copying onto the DispatcherServlet and the `MultipartResolver` bean (lines 106-123) is not modelled. It sets framework objects, and the provisioned definitions carry only type and role.
- Bean factory queries: `containsBean` on singletons, aliases and parent factories is abstracted by `BeanFactoryView`. So are the `includeNonSingletons`/`allowEagerInit` flags of `getBeanNamesForType`. `ViewOf` gives the view of a plain definitions map.
- The `value` alias of `basePackages` on `@ServletComponentScan` is not modelled; the attributes hold `basePackages` directly.
- `ClassUtils.getPackageName` is the package field of a `ClassName`.
- Beans.Registry.RegisterBeanDefinition: requires a free name. The container's bean-override policy is not part of this model, and the registrar only registers under a free name.
- UpdatePostProcessor: the in-place `Set` merge is modelled as replacing the definition in the registry map. Aliasing of that `Set` with other holders is not captured.
- When the existing definition has no `Set` argument, the source dereferences null. The model returns a `MissingPackagesArgument` failure.
- Classpath scanning, the provider's environment and resource loader, and candidate-component eligibility are reduced to the `Classpath` function.
- The concrete `doHandle` subclasses (servlet, filter and listener handlers) are not part of this model. `doHandle` is an abstract function parameter.
- Casting the application context to `BeanDefinitionRegistry`: each modelled context carries its registry, so the `ClassCastException` is not modelled.
- The `beanFactory` parameter of `postProcessBeanFactory` is not modelled, because the source ignores it.
- GetPackagesToScan: returns the const package sequence. The unmodifiable view is not modelled because the model's sequences are immutable.
- `HANDLERS` is a `const` of three handlers, so the unmodifiable list needs no separate wrapper.
- The class `DataSourceTransactionManagerAutoConfiguration` and the sample application are not part of this model; they hold no registration logic.
