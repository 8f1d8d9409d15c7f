/** XunitTestProvider (ReSharper 5.0): how test elements are ordered, how a
    requested element becomes the chain of remote tasks that runs it, and
    how declared code elements are classified as tests. The host's element
    equality, its culture-aware string comparer and xUnit.net's own test
    predicates are not part of this code, so they are parameters. */
module Provider {
  import opened Common
  import opened RemoteTasks

  /** XunitTestElementClass: a test class and the assembly it is built into. */
  datatype TestClassElement = TestClassElement(typeName: string, assemblyLocation: string)

  /** The unit test elements the provider is given: its own class and
      method elements, or an element of some other provider. */
  datatype UnitTestElement =
    | ClassElement(testClass: TestClassElement)
    | MethodElement(testClass: TestClassElement, typeName: string, methodName: string, order: int)
    | ForeignElement(typeName: string)
  {
    /** GetTypeClrName() */
    function TypeClrName(): string
    {
      match this
      case ClassElement(c) => c.typeName
      case MethodElement(_, t, _, _) => t
      case ForeignElement(t) => t
    }
  }

  /** object.Equals(x, y) on two elements, as the elements define it. */
  type ElementEquality = (UnitTestElement, UnitTestElement) -> bool

  /** StringComparer.CurrentCultureIgnoreCase.Compare */
  type StringComparer = (string, string) -> int

  /** ICollection.Contains: some element of the list equals `e`. */
  predicate Contains(list: seq<UnitTestElement>, e: UnitTestElement, equals: ElementEquality)
  {
    exists i :: 0 <= i < |list| && equals(list[i], e)
  }

  /** CompareUnitTestElements: 0 for equal elements; then the type names,
      compared ignoring case; for the same type name, methods sort before
      classes, two classes tie and two methods go by Order. Casting an
      element of another provider to a method element throws. */
  function CompareUnitTestElements(x: UnitTestElement, y: UnitTestElement,
                                   equals: ElementEquality, comparer: StringComparer): (r: Result<int>)
    ensures equals(x, y) ==> r == Ok(0)
    ensures !equals(x, y) && comparer(x.TypeClrName(), y.TypeClrName()) != 0 ==>
      r == Ok(comparer(x.TypeClrName(), y.TypeClrName()))
    ensures !equals(x, y) && comparer(x.TypeClrName(), y.TypeClrName()) == 0 ==>
      && (x.MethodElement? && y.ClassElement? ==> r == Ok(-1))
      && (x.ClassElement? && y.MethodElement? ==> r == Ok(1))
      && (x.ClassElement? && y.ClassElement? ==> r == Ok(0))
      && (x.MethodElement? && y.MethodElement? ==> r == Ok(CompareInt(x.order, y.order)))
      && (x.ForeignElement? || y.ForeignElement? ==> r == Err(InvalidCast))
  {
    if equals(x, y) then Ok(0)
    else
      var compare := comparer(x.TypeClrName(), y.TypeClrName());
      if compare != 0 then Ok(compare)
      else if x.MethodElement? && y.ClassElement? then Ok(-1)
      else if x.ClassElement? && y.MethodElement? then Ok(1)
      else if x.ClassElement? && y.ClassElement? then Ok(0)
      else if x.MethodElement? && y.MethodElement? then Ok(CompareInt(x.order, y.order))
      else Err(InvalidCast)
  }

  /** The comparison is antisymmetric whenever element equality is symmetric
      and the string comparer is antisymmetric: swapping the arguments
      negates the sign of the result and keeps the failures. */
  lemma CompareIsAntisymmetric(x: UnitTestElement, y: UnitTestElement,
                               equals: ElementEquality, comparer: StringComparer)
    requires forall a, b :: equals(a, b) == equals(b, a)
    requires forall s, t :: Sign(comparer(s, t)) == -Sign(comparer(t, s))
    ensures CompareUnitTestElements(x, y, equals, comparer).Ok? <==>
            CompareUnitTestElements(y, x, equals, comparer).Ok?
    ensures CompareUnitTestElements(x, y, equals, comparer).Ok? ==>
      Sign(CompareUnitTestElements(x, y, equals, comparer).value) ==
      -Sign(CompareUnitTestElements(y, x, equals, comparer).value)
  {
    assert equals(x, y) == equals(y, x);
    assert Sign(comparer(x.TypeClrName(), y.TypeClrName())) == -Sign(comparer(y.TypeClrName(), x.TypeClrName()));
  }

  /** CreateClassTask: the class task for the test class, keyed by its
      assembly location and type name, explicit when the class is in the
      explicit list. */
  function CreateClassTask(testClass: TestClassElement, explicitElements: seq<UnitTestElement>,
                           equals: ElementEquality): (t: XunitTestClassTask)
    ensures t.runnerId == XunitRunnerId
    ensures t.projectId == testClass.assemblyLocation && t.typeName == testClass.typeName
    ensures t.explicitly <==> Contains(explicitElements, ClassElement(testClass), equals)
  {
    NewClassTask(Some(testClass.assemblyLocation), Some(testClass.typeName),
                 Contains(explicitElements, ClassElement(testClass), equals)).value
  }

  /** CreateMethodTask: the method task, keyed by the class's assembly
      location and type name and the method name, explicit when the method
      is in the explicit list. */
  function CreateMethodTask(testMethod: UnitTestElement, explicitElements: seq<UnitTestElement>,
                            equals: ElementEquality): (t: XunitTestMethodTask)
    requires testMethod.MethodElement?
    ensures t.projectId == testMethod.testClass.assemblyLocation
    ensures t.typeName == testMethod.testClass.typeName && t.methodName == testMethod.methodName
    ensures t.explicitly <==> Contains(explicitElements, testMethod, equals)
  {
    XunitTestMethodTask(testMethod.testClass.assemblyLocation, testMethod.testClass.typeName,
                        testMethod.methodName, Contains(explicitElements, testMethod, equals))
  }

  /** GetTaskSequence: a method element becomes three tasks, in the order
      assembly (bound to no element), class (bound to the method's class),
      method (bound to the method); a class element needs no tasks of its
      own; any other element is an ArgumentException. */
  function GetTaskSequence(element: UnitTestElement, explicitElements: seq<UnitTestElement>,
                           equals: ElementEquality): (r: Result<seq<UnitTestTask<UnitTestElement>>>)
    ensures element.ForeignElement? <==> r == Err(Argument)
    ensures element.ClassElement? ==> r == Ok([])
    ensures element.MethodElement? ==> r.Ok? && |r.value| == 3
    ensures element.MethodElement? ==>
      var c := element.testClass;
      && r.value[0] == UnitTestTask(None, AssemblyTask(XunitTestAssemblyTask(c.assemblyLocation)))
      && r.value[1] == UnitTestTask(Some(ClassElement(c)), ClassTask(CreateClassTask(c, explicitElements, equals)))
      && r.value[2] == UnitTestTask(Some(element), MethodTask(CreateMethodTask(element, explicitElements, equals)))
      && r.value[1].task.cls.runnerId == XunitRunnerId
      && r.value[1].task.cls.projectId == c.assemblyLocation
      && r.value[1].task.cls.typeName == c.typeName
      && (r.value[1].task.cls.explicitly <==> Contains(explicitElements, ClassElement(c), equals))
      && r.value[2].task.run.projectId == c.assemblyLocation
      && r.value[2].task.run.typeName == c.typeName
      && r.value[2].task.run.methodName == element.methodName
      && (r.value[2].task.run.explicitly <==> Contains(explicitElements, element, equals))
  {
    match element
    case MethodElement(testClass, _, _, _) =>
      Ok([UnitTestTask(None, AssemblyTask(XunitTestAssemblyTask(testClass.assemblyLocation))),
          UnitTestTask(Some(ClassElement(testClass)), ClassTask(CreateClassTask(testClass, explicitElements, equals))),
          UnitTestTask(Some(element), MethodTask(CreateMethodTask(element, explicitElements, equals)))])
    case ClassElement(_) => Ok([])
    case ForeignElement(_) => Err(Argument)
  }

  /** Two methods of the same class yield the same assembly task and equal
      class tasks, so merging their task lists by task equality loads the
      assembly and the class once. */
  lemma SiblingMethodsShareLoadTasks(m1: UnitTestElement, m2: UnitTestElement,
                                     explicitElements: seq<UnitTestElement>, equals: ElementEquality)
    requires m1.MethodElement? && m2.MethodElement? && m1.testClass == m2.testClass
    ensures GetTaskSequence(m1, explicitElements, equals).value[0] ==
            GetTaskSequence(m2, explicitElements, equals).value[0]
    ensures GetTaskSequence(m1, explicitElements, equals).value[1].task.cls.Equals(
              Some(GetTaskSequence(m2, explicitElements, equals).value[1].task))
  {
  }

  /** Explicitness is part of a class task's identity: when one request
      lists the class as explicit and another does not, their class tasks
      are not equal and are not merged. */
  lemma ExplicitClassSplitsClassTasks(m: UnitTestElement, explicit1: seq<UnitTestElement>,
                                      explicit2: seq<UnitTestElement>, equals: ElementEquality)
    requires m.MethodElement?
    requires Contains(explicit1, ClassElement(m.testClass), equals)
    requires !Contains(explicit2, ClassElement(m.testClass), equals)
    ensures !GetTaskSequence(m, explicit1, equals).value[1].task.cls.Equals(
               Some(GetTaskSequence(m, explicit2, equals).value[1].task))
  {
  }

  // ---------------------------------------------------------------------
  // Classification of declared code elements

  /** AccessRights of a type member. */
  datatype AccessRights = Public | Internal | Protected | ProtectedOrInternal | ProtectedAndInternal | Private | NoAccess

  /** A method: its short name and, for each PropertyData attribute on it,
      the first positional argument if it is a string. */
  datatype MethodDecl = MethodDecl(shortName: string, propertyDataNames: seq<Option<string>>)

  /** A property, with the methods of its containing type. */
  datatype PropertyDecl =
    PropertyDecl(shortName: string, isStatic: bool, accessRights: AccessRights, containingTypeMethods: seq<MethodDecl>)

  /** A class, with its nested types. */
  datatype ClassDecl = ClassDecl(clrName: string, nestedTypes: seq<DeclaredElement>)

  /** The declared elements ReSharper asks about: methods, properties,
      classes, and everything else (structs, interfaces, fields, ...). */
  datatype DeclaredElement =
    | DeclaredMethod(decl: MethodDecl)
    | DeclaredProperty(property: PropertyDecl)
    | DeclaredClass(cls: ClassDecl)
    | DeclaredOther

  /** xUnit.net's MethodUtility.IsTest and TypeUtility.IsTestClass. */
  datatype XunitRules = XunitRules(isTest: MethodDecl -> bool, isTestClass: ClassDecl -> bool)

  /** UnitTestElementKind; an enum can hold a value outside its named cases. */
  datatype UnitTestElementKind = Unknown | Test | TestContainer | TestStuff | Unlisted(value: int)

  /** IsUnitTest: a method that xUnit.net calls a test. */
  predicate IsUnitTest(rules: XunitRules, d: DeclaredElement)
    ensures IsUnitTest(rules, d) ==> d.DeclaredMethod?
    ensures d.DeclaredMethod? ==> (IsUnitTest(rules, d) <==> rules.isTest(d.decl))
  {
    d.DeclaredMethod? && rules.isTest(d.decl)
  }

  /** IsUnitTestContainer: a class that xUnit.net calls a test class. */
  predicate IsUnitTestContainer(rules: XunitRules, d: DeclaredElement)
    ensures IsUnitTestContainer(rules, d) ==> d.DeclaredClass?
    ensures d.DeclaredClass? ==> (IsUnitTestContainer(rules, d) <==> rules.isTestClass(d.cls))
  {
    d.DeclaredClass? && rules.isTestClass(d.cls)
  }

  /** The names given to PropertyData attributes on the methods, in order. */
  function PropertyDataNames(methods: seq<MethodDecl>): seq<Option<string>>
  {
    if |methods| == 0 then [] else methods[0].propertyDataNames + PropertyDataNames(methods[1..])
  }

  /** IsTheoryPropertyDataProperty: a static public property whose short
      name is the first positional argument of a PropertyData attribute on
      some method of its containing type. */
  predicate IsTheoryPropertyDataProperty(p: PropertyDecl)
    ensures IsTheoryPropertyDataProperty(p) ==> p.isStatic && p.accessRights == Public
    ensures IsTheoryPropertyDataProperty(p) ==> |p.containingTypeMethods| > 0
  {
    p.isStatic && p.accessRights == Public &&
    exists k :: 0 <= k < |PropertyDataNames(p.containingTypeMethods)| &&
                PropertyDataNames(p.containingTypeMethods)[k] == Some(p.shortName)
  }

  /** A name is among the PropertyData names exactly when some attribute on
      some method carries it. */
  lemma {:induction false} PropertyDataNamesMembership(methods: seq<MethodDecl>, name: Option<string>)
    ensures name in PropertyDataNames(methods) <==>
      exists i, j :: 0 <= i < |methods| && 0 <= j < |methods[i].propertyDataNames| &&
                     methods[i].propertyDataNames[j] == name
  {
    if |methods| > 0 {
      PropertyDataNamesMembership(methods[1..], name);
      if name in PropertyDataNames(methods) && name !in methods[0].propertyDataNames {
        var i', j :| 0 <= i' < |methods[1..]| && 0 <= j < |methods[1..][i'].propertyDataNames| &&
                     methods[1..][i'].propertyDataNames[j] == name;
        assert methods[i' + 1].propertyDataNames[j] == name;
      }
      if exists i, j :: 0 <= i < |methods| && 0 <= j < |methods[i].propertyDataNames| &&
                        methods[i].propertyDataNames[j] == name {
        var i, j :| 0 <= i < |methods| && 0 <= j < |methods[i].propertyDataNames| &&
                    methods[i].propertyDataNames[j] == name;
        if i > 0 {
          assert methods[1..][i - 1].propertyDataNames[j] == name;
        } else {
          assert name in methods[0].propertyDataNames;
        }
      }
    }
  }

  /** A property is test data exactly when it is static and public and some
      PropertyData attribute on a method of its containing type names it. */
  lemma TheoryPropertyDataPropertyIff(p: PropertyDecl)
    ensures IsTheoryPropertyDataProperty(p) <==>
      p.isStatic && p.accessRights == Public &&
      exists i, j :: 0 <= i < |p.containingTypeMethods| &&
                     0 <= j < |p.containingTypeMethods[i].propertyDataNames| &&
                     p.containingTypeMethods[i].propertyDataNames[j] == Some(p.shortName)
  {
    PropertyDataNamesMembership(p.containingTypeMethods, Some(p.shortName));
  }

  /** IsUnitTestElement: a test method, a PropertyData property or a test
      class. */
  predicate IsUnitTestElement(rules: XunitRules, d: DeclaredElement)
    decreases d, 2
    ensures IsUnitTestElement(rules, d) ==> !d.DeclaredOther?
    ensures d.DeclaredMethod? ==> (IsUnitTestElement(rules, d) <==> rules.isTest(d.decl))
    ensures d.DeclaredProperty? ==> (IsUnitTestElement(rules, d) <==> IsTheoryPropertyDataProperty(d.property))
    ensures d.DeclaredClass? ==> (IsUnitTestElement(rules, d) <==> IsUnitTestClass(rules, d))
  {
    IsUnitTest(rules, d) ||
    (d.DeclaredProperty? && IsTheoryPropertyDataProperty(d.property)) ||
    IsUnitTestClass(rules, d)
  }

  /** IsUnitTestClass: a class that is a test class or contains, at any
      depth of nesting, a unit test element. */
  predicate IsUnitTestClass(rules: XunitRules, d: DeclaredElement)
    decreases d, 1
    ensures IsUnitTestClass(rules, d) ==> d.DeclaredClass?
    ensures d.DeclaredClass? && rules.isTestClass(d.cls) ==> IsUnitTestClass(rules, d)
  {
    d.DeclaredClass? && (IsUnitTestContainer(rules, d) || ContainsUnitTestElement(rules, d.cls))
  }

  /** ContainsUnitTestElement: the Aggregate fold over the nested types. */
  predicate ContainsUnitTestElement(rules: XunitRules, c: ClassDecl)
    decreases c, 0
    ensures ContainsUnitTestElement(rules, c) ==> |c.nestedTypes| > 0
  {
    AggregateNested(rules, c.nestedTypes, false)
  }

  /** Aggregate(seed, (current, nestedType) => IsUnitTestElement(nestedType) || current) */
  predicate AggregateNested(rules: XunitRules, nested: seq<DeclaredElement>, current: bool)
    decreases nested, 0
    ensures current ==> AggregateNested(rules, nested, current)
    ensures AggregateNested(rules, nested, current) ==> current || |nested| > 0
  {
    if |nested| == 0 then current
    else AggregateNested(rules, nested[1..], IsUnitTestElement(rules, nested[0]) || current)
  }

  /** The fold is the seed or-ed with "some nested type is a unit test
      element". */
  lemma {:induction false} AggregateNestedIsAny(rules: XunitRules, nested: seq<DeclaredElement>, current: bool)
    ensures AggregateNested(rules, nested, current) <==>
      current || exists i :: 0 <= i < |nested| && IsUnitTestElement(rules, nested[i])
  {
    if |nested| > 0 {
      AggregateNestedIsAny(rules, nested[1..], IsUnitTestElement(rules, nested[0]) || current);
      if exists i :: 0 <= i < |nested| && IsUnitTestElement(rules, nested[i]) {
        var i :| 0 <= i < |nested| && IsUnitTestElement(rules, nested[i]);
        if i > 0 {
          assert nested[1..][i - 1] == nested[i];
        }
      }
    }
  }

  /** A class is a unit test class exactly when xUnit.net calls it a test
      class or one of its nested types is a unit test element. */
  lemma UnitTestClassIff(rules: XunitRules, d: DeclaredElement)
    ensures IsUnitTestClass(rules, d) <==>
      d.DeclaredClass? &&
      (rules.isTestClass(d.cls) ||
       exists i :: 0 <= i < |d.cls.nestedTypes| && IsUnitTestElement(rules, d.cls.nestedTypes[i]))
  {
    if d.DeclaredClass? {
      AggregateNestedIsAny(rules, d.cls.nestedTypes, false);
    }
  }

  /** The order in which the nested types are enumerated does not change
      the verdict of the fold. */
  lemma NestedOrderIrrelevant(rules: XunitRules, c1: ClassDecl, c2: ClassDecl)
    requires multiset(c1.nestedTypes) == multiset(c2.nestedTypes)
    ensures ContainsUnitTestElement(rules, c1) == ContainsUnitTestElement(rules, c2)
  {
    AggregateNestedIsAny(rules, c1.nestedTypes, false);
    AggregateNestedIsAny(rules, c2.nestedTypes, false);
    forall i | 0 <= i < |c1.nestedTypes|
      ensures c1.nestedTypes[i] in c2.nestedTypes
    {
      assert c1.nestedTypes[i] in multiset(c1.nestedTypes);
    }
    forall i | 0 <= i < |c2.nestedTypes|
      ensures c2.nestedTypes[i] in c1.nestedTypes
    {
      assert c2.nestedTypes[i] in multiset(c2.nestedTypes);
    }
  }

  /** IsElementOfKind: Unknown is "not test stuff", Test is a test method,
      TestContainer a test class, TestStuff any unit test element; a kind
      outside the named ones is never matched. */
  predicate IsElementOfKind(rules: XunitRules, d: DeclaredElement, kind: UnitTestElementKind)
    ensures kind.Unlisted? ==> !IsElementOfKind(rules, d, kind)
    ensures IsElementOfKind(rules, d, kind) && !kind.Unknown? ==> IsUnitTestElement(rules, d)
  {
    match kind
    case Unknown => !IsUnitTestElement(rules, d)
    case Test => IsUnitTest(rules, d)
    case TestContainer => IsUnitTestContainer(rules, d)
    case TestStuff => IsUnitTestElement(rules, d)
    case Unlisted(_) => false
  }

  /** Every declared element is of kind Unknown or of kind TestStuff, never
      both; only methods can be of kind Test and only classes of kind
      TestContainer, and both of those are TestStuff. */
  lemma ElementKindsPartition(rules: XunitRules, d: DeclaredElement, v: int)
    ensures IsElementOfKind(rules, d, Unknown) <==> !IsElementOfKind(rules, d, TestStuff)
    ensures !IsElementOfKind(rules, d, Unlisted(v))
    ensures IsElementOfKind(rules, d, Test) ==> d.DeclaredMethod? && IsElementOfKind(rules, d, TestStuff)
    ensures IsElementOfKind(rules, d, TestContainer) ==> d.DeclaredClass? && IsElementOfKind(rules, d, TestStuff)
  {
  }
}
