/**
  ServletComponentScanRegistrar: each @ServletComponentScan declaration
  computes a set of packages and either registers the single
  ServletComponentRegisteringPostProcessor definition or merges the packages
  into the one already registered.
*/
module ServletComponentScanRegistrar {
  import opened Wrappers
  import opened Beans
  import opened LinkedSet

  /** The bean name of the post-processor definition. */
  const BEAN_NAME: BeanName := "servletComponentRegisteringPostProcessor"

  /** The attributes of @ServletComponentScan that the registrar reads. */
  datatype ServletComponentScanAttributes = ServletComponentScanAttributes(basePackages: seq<string>, basePackageClasses: seq<ClassName>)

  /** The metadata of the class that carries @ServletComponentScan. */
  datatype ImportingClassMetadata = ImportingClassMetadata(className: ClassName, attributes: ServletComponentScanAttributes)

  /** An existing definition under BEAN_NAME without a Set-typed constructor argument: the source dereferences null. */
  datatype RegistrarFailure = MissingPackagesArgument

  /** The package of each class, in order. */
  function PackageNames(classes: seq<ClassName>): (r: seq<string>)
    ensures |r| == |classes|
    ensures forall i :: 0 <= i < |classes| ==> r[i] == classes[i].packageName
  {
    seq(|classes|, i requires 0 <= i < |classes| => classes[i].packageName)
  }

  /**
    The packages one declaration asks for: basePackages first, then the
    packages of basePackageClasses, without duplicates; the package of the
    importing class when both attributes give nothing.
  */
  function PackagesToScan(metadata: ImportingClassMetadata): (r: seq<string>)
    ensures Distinct(r) && |r| > 0
    ensures var declared := Elements(metadata.attributes.basePackages) +
                            Elements(PackageNames(metadata.attributes.basePackageClasses));
      && (declared == {} ==> r == [metadata.className.packageName])
      && (declared != {} ==> Elements(r) == declared && AddAll([], metadata.attributes.basePackages) <= r)
  {
    var declared := AddAll(AddAll([], metadata.attributes.basePackages), PackageNames(metadata.attributes.basePackageClasses));
    if declared == [] then [metadata.className.packageName] else declared
  }

  /** getPackagesToScan: a LinkedHashSet filled by addAll and a loop over the classes. */
  method GetPackagesToScan(metadata: ImportingClassMetadata) returns (packagesToScan: seq<string>)
    ensures packagesToScan == PackagesToScan(metadata)
  {
    var basePackages := metadata.attributes.basePackages;
    var basePackageClasses := metadata.attributes.basePackageClasses;
    packagesToScan := [];
    packagesToScan := AddAll(packagesToScan, basePackages);
    for i := 0 to |basePackageClasses|
      invariant packagesToScan == AddAll(AddAll([], basePackages), PackageNames(basePackageClasses[..i]))
    {
      PackageNamesStep(AddAll([], basePackages), basePackageClasses, i);
      packagesToScan := Add(packagesToScan, basePackageClasses[i].packageName);
    }
    assert basePackageClasses[..|basePackageClasses|] == basePackageClasses;
    if packagesToScan == [] {
      packagesToScan := Add(packagesToScan, metadata.className.packageName);
    }
  }

  /** One turn of the loop in GetPackagesToScan adds the next class's package. */
  lemma PackageNamesStep(start: seq<string>, classes: seq<ClassName>, i: nat)
    requires i < |classes|
    ensures AddAll(start, PackageNames(classes[..i + 1])) ==
            Add(AddAll(start, PackageNames(classes[..i])), classes[i].packageName)
  {
    assert PackageNames(classes[..i + 1]) == PackageNames(classes[..i]) + [classes[i].packageName];
    AddAllSnoc(start, PackageNames(classes[..i]), classes[i].packageName);
  }

  /** The definition addPostProcessor creates. */
  function PostProcessorDefinition(packagesToScan: seq<string>): BeanDefinition {
    BeanDefinition(ServletComponentRegisteringPostProcessorType, RoleInfrastructure, Some(packagesToScan))
  }

  /** The registry after one declaration, or the failure the source raises. */
  function Register(defs: Definitions, metadata: ImportingClassMetadata): (r: Result<Definitions, RegistrarFailure>)
    // a new definition: exactly one, infrastructure, holding the computed packages
    ensures BEAN_NAME !in defs ==>
      r.Success? && r.value.Keys == defs.Keys + {BEAN_NAME} &&
      r.value[BEAN_NAME] == PostProcessorDefinition(PackagesToScan(metadata))
    // an existing definition: no new name, its package set grows by the new packages
    ensures BEAN_NAME in defs && defs[BEAN_NAME].packagesArgument.Some? ==>
      r.Success? && r.value.Keys == defs.Keys &&
      r.value[BEAN_NAME] == defs[BEAN_NAME].(packagesArgument := r.value[BEAN_NAME].packagesArgument) &&
      r.value[BEAN_NAME].packagesArgument.Some? &&
      Elements(r.value[BEAN_NAME].packagesArgument.value) ==
        Elements(defs[BEAN_NAME].packagesArgument.value) + Elements(PackagesToScan(metadata))
    ensures BEAN_NAME in defs && defs[BEAN_NAME].packagesArgument.None? ==> r == Failure(MissingPackagesArgument)
    // no other definition is touched
    ensures r.Success? ==> forall n :: n in defs && n != BEAN_NAME ==> n in r.value && r.value[n] == defs[n]
  {
    var packagesToScan := PackagesToScan(metadata);
    if BEAN_NAME in defs then
      var definition := defs[BEAN_NAME];
      match definition.packagesArgument
      case None => Failure(MissingPackagesArgument)
      case Some(mergedPackages) =>
        Success(defs[BEAN_NAME := definition.(packagesArgument := Some(AddAll(mergedPackages, packagesToScan)))])
    else
      Success(defs[BEAN_NAME := PostProcessorDefinition(packagesToScan)])
  }

  /** registerBeanDefinitions: add the post-processor definition or update the existing one. */
  method RegisterBeanDefinitions(metadata: ImportingClassMetadata, registry: Registry) returns (failure: Option<RegistrarFailure>)
    modifies registry
    ensures var r := Register(old(registry.definitions), metadata);
      && (r.Success? ==> failure == None && registry.definitions == r.value)
      && (r.Failure? ==> failure == Some(r.error) && registry.definitions == old(registry.definitions))
  {
    var packagesToScan := GetPackagesToScan(metadata);
    if registry.ContainsBeanDefinition(BEAN_NAME) {
      failure := UpdatePostProcessor(registry, packagesToScan);
    } else {
      AddPostProcessor(registry, packagesToScan);
      failure := None;
    }
  }

  /** updatePostProcessor: merge the packages into the existing definition's constructor argument, in place. */
  method UpdatePostProcessor(registry: Registry, packagesToScan: seq<string>) returns (failure: Option<RegistrarFailure>)
    requires BEAN_NAME in registry.definitions
    modifies registry
    ensures var definition := old(registry.definitions[BEAN_NAME]);
      && (definition.packagesArgument.None? ==>
            failure == Some(MissingPackagesArgument) && registry.definitions == old(registry.definitions))
      && (definition.packagesArgument.Some? ==>
            failure == None &&
            registry.definitions == old(registry.definitions)[BEAN_NAME :=
              definition.(packagesArgument := Some(AddAll(definition.packagesArgument.value, packagesToScan)))])
  {
    var definition := registry.definitions[BEAN_NAME];
    if definition.packagesArgument.None? {
      return Some(MissingPackagesArgument);
    }
    var mergedPackages := definition.packagesArgument.value;
    mergedPackages := AddAll(mergedPackages, packagesToScan);
    registry.definitions := registry.definitions[BEAN_NAME := definition.(packagesArgument := Some(mergedPackages))];
    failure := None;
  }

  /** addPostProcessor: register a new infrastructure definition holding the packages. */
  method AddPostProcessor(registry: Registry, packagesToScan: seq<string>)
    requires BEAN_NAME !in registry.definitions
    modifies registry
    ensures registry.definitions == old(registry.definitions)[BEAN_NAME := PostProcessorDefinition(packagesToScan)]
  {
    var beanDefinition := BeanDefinition(ServletComponentRegisteringPostProcessorType, RoleApplication, None);
    beanDefinition := beanDefinition.(packagesArgument := Some(packagesToScan));
    beanDefinition := beanDefinition.(role := RoleInfrastructure);
    registry.RegisterBeanDefinition(BEAN_NAME, beanDefinition);
  }

  /** Declaring the same scan twice leaves the registry as declaring it once. */
  lemma RegisterIdempotent(defs: Definitions, metadata: ImportingClassMetadata)
    requires Register(defs, metadata).Success?
    ensures Register(Register(defs, metadata).value, metadata) == Register(defs, metadata)
  {
    var p := PackagesToScan(metadata);
    var once := Register(defs, metadata).value;
    var definition := once[BEAN_NAME];
    var merged := definition.packagesArgument.value;
    assert Elements(p) <= Elements(merged);
    AddAllPresent(merged, p);
    assert once[BEAN_NAME := definition.(packagesArgument := Some(AddAll(merged, p)))] == once;
  }

  /** Several declarations, registered one after another; the first failure stops the rest. */
  function RegisterAll(defs: Definitions, declarations: seq<ImportingClassMetadata>): Result<Definitions, RegistrarFailure>
    decreases |declarations|
  {
    if declarations == [] then Success(defs)
    else
      var r := RegisterAll(defs, declarations[..|declarations| - 1]);
      if r.Failure? then r else Register(r.value, declarations[|declarations| - 1])
  }

  /** Every package any of the declarations asks for. */
  ghost function DeclaredPackages(declarations: seq<ImportingClassMetadata>): set<string> {
    set d, p | d in declarations && p in PackagesToScan(d) :: p
  }

  /**
    Starting without a post-processor definition, any non-empty series of
    declarations leaves exactly one definition, whose package set is the
    union of what they asked for; nothing else is touched.
  */
  lemma {:induction false} RegisterAllUnion(defs: Definitions, declarations: seq<ImportingClassMetadata>)
    requires BEAN_NAME !in defs && |declarations| > 0
    ensures var r := RegisterAll(defs, declarations);
      && r.Success?
      && r.value.Keys == defs.Keys + {BEAN_NAME}
      && r.value[BEAN_NAME].beanType == ServletComponentRegisteringPostProcessorType
      && r.value[BEAN_NAME].role == RoleInfrastructure
      && r.value[BEAN_NAME].packagesArgument.Some?
      && Elements(r.value[BEAN_NAME].packagesArgument.value) == DeclaredPackages(declarations)
      && forall n :: n in defs ==> r.value[n] == defs[n]
    decreases |declarations|
  {
    var n := |declarations|;
    var init := declarations[..n - 1];
    var last := declarations[n - 1];
    assert declarations == init + [last];
    DeclaredPackagesSnoc(init, last);
    if n == 1 {
      assert init == [];
      assert RegisterAll(defs, declarations) == Register(defs, last);
      assert DeclaredPackages(init) == {};
    } else {
      RegisterAllUnion(defs, init);
      var before := RegisterAll(defs, init).value;
      assert RegisterAll(defs, declarations) == Register(before, last);
      assert BEAN_NAME in before && before[BEAN_NAME].packagesArgument.Some?;
      var after := Register(before, last).value;
      assert after.Keys == before.Keys;
      assert after[BEAN_NAME].beanType == before[BEAN_NAME].beanType;
      assert after[BEAN_NAME].role == before[BEAN_NAME].role;
    }
  }

  /** The packages of the declarations so far and one more. */
  lemma DeclaredPackagesSnoc(init: seq<ImportingClassMetadata>, last: ImportingClassMetadata)
    ensures DeclaredPackages(init + [last]) == DeclaredPackages(init) + Elements(PackagesToScan(last))
  {
  }

  /** The merged package set depends only on which declarations were made, not on their order or repetition. */
  lemma RegisterAllOrderIndependent(defs: Definitions, first: seq<ImportingClassMetadata>, second: seq<ImportingClassMetadata>)
    requires BEAN_NAME !in defs && |first| > 0
    requires Elements(first) == Elements(second)
    ensures var a := RegisterAll(defs, first); var b := RegisterAll(defs, second);
      && a.Success? && b.Success? && a.value.Keys == b.value.Keys
      && (forall n :: n in a.value && n != BEAN_NAME ==> a.value[n] == b.value[n])
      && a.value[BEAN_NAME].packagesArgument.Some? && b.value[BEAN_NAME].packagesArgument.Some?
      && Elements(a.value[BEAN_NAME].packagesArgument.value) == Elements(b.value[BEAN_NAME].packagesArgument.value)
  {
    assert first[0] in Elements(first);
    assert |second| > 0;
    RegisterAllUnion(defs, first);
    RegisterAllUnion(defs, second);
    assert forall d :: d in first <==> d in second by {
      forall d ensures d in first <==> d in second {
        assert d in first <==> d in Elements(first);
        assert d in second <==> d in Elements(second);
      }
    }
    assert DeclaredPackages(first) == DeclaredPackages(second);
  }
}
