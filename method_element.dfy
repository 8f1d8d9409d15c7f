/** XunitTestMethodElement (ReSharper 6.0): one test method in the unit test
    tree. It keeps a back-link to its class element, which keeps the set of
    its children; it resolves its declared method through the PSI, builds
    the task chain that runs it, and is persisted as an XML record. */
module MethodElements {
  import opened Common
  import opened RemoteTasks
  import opened HostModel

  /** UnitTestElementState, as far as this element uses it. */
  datatype UnitTestElementState = Valid | Invalid

  /** XunitTestClassElement, reduced to what a method element touches: its
      type name, its assembly location and its children
      (AddChild/RemoveChild add to and remove from this set). */
  class XunitTestClassElement {
    const typeName: string
    const assemblyLocation: string
    var children: set<XunitTestMethodElement>

    constructor (typeName: string, assemblyLocation: string)
      ensures this.typeName == typeName && this.assemblyLocation == assemblyLocation
      ensures children == {}
    {
      this.typeName := typeName;
      this.assemblyLocation := assemblyLocation;
      children := {};
    }
  }

  /** A reference of type IUnitTestElement: null, an xUnit.net class or
      method element, or an element of another kind. */
  datatype ElementRef =
    | NullElement
    | ClassRef(cls: XunitTestClassElement)
    | MethodRef(element: XunitTestMethodElement)
    | OtherElement
  {
    /** The class element the reference denotes, if any. */
    function Objects(): set<object>
    {
      if ClassRef? then {cls} else {}
    }
  }

  /** EqualityComparer.Default.Equals(item, value), as List.Contains calls
      it: a null item equals only null; a method element uses its own
      Equals. A class element's Equals is not part of this model and is
      taken as identity; an element of another kind is taken to equal
      nothing of this provider. */
  predicate ItemEquals(item: ElementRef, value: ElementRef)
  {
    match item
    case NullElement => value.NullElement?
    case ClassRef(c) => value == ClassRef(c)
    case MethodRef(m) => m.Equals(value)
    case OtherElement => false
  }

  /** IList.Contains */
  predicate Contains(list: seq<ElementRef>, value: ElementRef)
  {
    exists i :: 0 <= i < |list| && ItemEquals(list[i], value)
  }

  /** What ReadFromXml asks the element factory to get or create. */
  datatype GetOrCreateTestMethod =
    GetOrCreateTestMethod(project: Project, testClass: XunitTestClassElement,
                          typeName: string, methodName: string, skipReason: string)

  class XunitTestMethodElement {
    const id: string
    /** typeName.FullName */
    const typeName: string
    const methodName: string
    /** ExplicitReason: the skip reason, possibly null. */
    const explicitReason: Option<string>
    /** The project the element's project envoy was created from. */
    const project: Project
    var parent: XunitTestClassElement?
    var state: UnitTestElementState

    /** The constructor: stores the identity, the skip reason as
        ExplicitReason and the Valid state, and sets Parent to the class,
        which adds the new element to the class's children. */
    constructor (testClass: XunitTestClassElement?, project: Project, id: string, typeName: string,
                 methodName: string, skipReason: Option<string>)
      modifies testClass
      ensures this.project == project
      ensures this.id == id && this.typeName == typeName && this.methodName == methodName
      ensures explicitReason == skipReason && state == Valid
      ensures parent == testClass
      ensures testClass != null ==> testClass.children == old(testClass.children) + {this}
    {
      this.project := project;
      this.id := id;
      this.typeName := typeName;
      this.methodName := methodName;
      explicitReason := skipReason;
      state := Valid;
      parent := null;
      new;
      var outcome := SetParent(if testClass == null then NullElement else ClassRef(testClass));
    }

    /** Whether `value` is the current parent, by reference. */
    predicate IsParent(value: ElementRef)
      reads this
    {
      match value
      case NullElement => parent == null
      case ClassRef(c) => parent == c
      case _ => false
    }

    /** The element is among its parent's children. */
    predicate LinkedToParent()
      reads this, parent
    {
      parent != null ==> this in parent.children
    }

    /** The Parent setter. Setting the current parent does nothing.
        Otherwise the element is first removed from its old parent's
        children; then a class (or null) becomes the parent and, if not
        null, gains the element as a child. A value of another kind fails
        the cast only after the removal, so the element is left out of its
        old parent's children while still pointing at it. */
    method SetParent(value: ElementRef) returns (outcome: Outcome)
      modifies this, parent, value.Objects()
      ensures state == old(state)
      ensures old(IsParent(value)) ==>
        outcome == Pass && parent == old(parent) && (parent != null ==> parent.children == old(parent.children))
      ensures !old(IsParent(value)) && old(parent) != null ==>
        old(parent).children == old(parent.children) - {this}
      ensures !old(IsParent(value)) && value.NullElement? ==> outcome == Pass && parent == null
      ensures !old(IsParent(value)) && value.ClassRef? ==>
        outcome == Pass && parent == value.cls && value.cls.children == old(value.cls.children) + {this}
      ensures value.MethodRef? || value.OtherElement? ==>
        outcome == Fail(InvalidCast) && parent == old(parent)
      ensures outcome.Pass? && old(LinkedToParent()) ==> LinkedToParent()
      ensures outcome.Fail? && parent != null ==> this !in parent.children
    {
      if IsParent(value) {
        return Pass;
      }
      if parent != null {
        parent.children := parent.children - {this};
      }
      match value
      case NullElement =>
        parent := null;
        outcome := Pass;
      case ClassRef(c) =>
        parent := c;
        c.children := c.children + {this};
        outcome := Pass;
      case _ =>
        outcome := Fail(InvalidCast);
    }

    /** Explicit: the element has a non-empty skip reason. */
    function Explicit(): (r: bool)
      ensures r <==> explicitReason.Some? && |explicitReason.value| > 0
    {
      !IsNullOrEmpty(explicitReason)
    }

    /** Equals(IUnitTestElement): only a method element can be equal, and
        then exactly when the type's full name and the method name agree. */
    predicate Equals(other: ElementRef)
      ensures Equals(other) ==> other.MethodRef?
      ensures other == MethodRef(this) ==> Equals(other)
    {
      other.MethodRef? && typeName == other.element.typeName && methodName == other.element.methodName
    }

    /** GetTaskSequence: the assembly task, the class task bound to the
        parent class, and the method task bound to this element, keyed by
        the class's assembly location, this element's type name and (for
        the method task) its short name; each task is explicit when its
        element is in the explicit list. Without a parent the TestClass
        dereference throws. */
    function GetTaskSequence(explicitElements: seq<ElementRef>): (r: Result<seq<UnitTestTask<ElementRef>>>)
      reads this
      ensures parent == null <==> r == Err(NullReference)
      ensures parent != null ==> r.Ok? && |r.value| == 3
      ensures parent != null ==>
        && r.value[0] == UnitTestTask(None, AssemblyTask(XunitTestAssemblyTask(parent.assemblyLocation)))
        && r.value[1] == UnitTestTask(Some(ClassRef(parent)), ClassTask(XunitTestClassTask(
             XunitRunnerId, parent.assemblyLocation, typeName, Contains(explicitElements, ClassRef(parent)))))
        && r.value[2] == UnitTestTask(Some(MethodRef(this)), MethodTask(XunitTestMethodTask(
             parent.assemblyLocation, typeName, methodName, Contains(explicitElements, MethodRef(this)))))
    {
      if parent == null then Err(NullReference)
      else
        var testClass := parent;
        var classTask := NewClassTask(Some(testClass.assemblyLocation), Some(typeName),
                                      Contains(explicitElements, ClassRef(testClass))).value;
        Ok([UnitTestTask(None, AssemblyTask(XunitTestAssemblyTask(testClass.assemblyLocation))),
            UnitTestTask(Some(ClassRef(testClass)), ClassTask(classTask)),
            UnitTestTask(Some(MethodRef(this)), MethodTask(XunitTestMethodTask(
              testClass.assemblyLocation, typeName, methodName, Contains(explicitElements, MethodRef(this)))))])
    }

    /** GetProject: the project the envoy designates while it is still
        loaded, null once it is gone. */
    function GetProject(projectLive: bool): (r: Option<Project>)
      ensures r.Some? <==> projectLive
      ensures r.Some? ==> r.value == project
    {
      if projectLive then Some(project) else None
    }

    /** GetDeclaredElement: the first test-method candidate of this name in
        the declared type, or null. */
    function GetDeclaredElement(projectLive: bool, psi: PsiSnapshot): (r: Option<TypeMember>)
      ensures GetDeclaredType(GetProject(projectLive), psi, typeName).None? ==> r.None?
      ensures r.Some? ==> IsTestMethodCandidate(r.value) && r.value in GetDeclaredType(GetProject(projectLive), psi, typeName).value.members
      ensures GetDeclaredType(GetProject(projectLive), psi, typeName).Some? ==>
        r == FirstCandidate(EnumerateMembers(GetDeclaredType(GetProject(projectLive), psi, typeName).value, methodName))
    {
      DeclaredMethodOf(GetDeclaredType(GetProject(projectLive), psi, typeName), methodName)
    }

    /** GetDisposition: invalid when the declared method is missing or
        invalid; otherwise the locations of its declarations that lie in a
        file, in declaration order. */
    function GetDisposition(projectLive: bool, psi: PsiSnapshot): (r: Disposition)
      ensures r.InvalidDisposition? <==>
        GetDeclaredElement(projectLive, psi).None? || !GetDeclaredElement(projectLive, psi).value.isValid
      ensures r.Located? ==> r.locations == Locations(GetDeclaredElement(projectLive, psi).value.declarations)
    {
      DispositionOf(GetDeclaredElement(projectLive, psi))
    }

    /** GetProjectFiles: the declared type's file when it has exactly one;
        otherwise the declared method's files, or none. */
    function GetProjectFiles(projectLive: bool, psi: PsiSnapshot): (r: seq<ProjectFile>)
      ensures var t := GetDeclaredType(GetProject(projectLive), psi, typeName);
        t.Some? && |t.value.sourceFiles| == 1 ==> r == t.value.sourceFiles
      ensures var t := GetDeclaredType(GetProject(projectLive), psi, typeName);
        !(t.Some? && |t.value.sourceFiles| == 1) && GetDeclaredElement(projectLive, psi).None? ==> r == []
      ensures var t := GetDeclaredType(GetProject(projectLive), psi, typeName);
        !(t.Some? && |t.value.sourceFiles| == 1) && GetDeclaredElement(projectLive, psi).Some? ==>
          r == GetDeclaredElement(projectLive, psi).value.sourceFiles
    {
      ProjectFilesOf(GetDeclaredType(GetProject(projectLive), psi, typeName), methodName)
    }

    /** WriteToXml: writes projectId, typeName, methodName and skipReason.
        When the project is gone, GetProject().GetPersistentID() throws
        before anything is written. */
    method WriteToXml(element: XmlElement, projectLive: bool) returns (outcome: Outcome)
      modifies element
      ensures !projectLive ==> outcome == Fail(NullReference) && element.attributes == old(element.attributes)
      ensures projectLive ==>
        && outcome == Pass
        && element.attributes == MethodRecord(old(element.attributes), project.persistentId,
                                              typeName, methodName, explicitReason)
    {
      var liveProject := GetProject(projectLive);
      if liveProject.None? {
        return Fail(NullReference);
      }
      element.SetAttribute("projectId", liveProject.value.persistentId);
      element.SetAttribute("typeName", typeName);
      element.SetAttribute("methodName", methodName);
      element.SetAttribute("skipReason", NullToEmpty(explicitReason));
      outcome := Pass;
    }
  }

  /** The attributes of a method element's record, over those the XML
      element already has. */
  function MethodRecord(attributes: map<string, string>, projectId: string, typeName: string,
                        methodName: string, skipReason: Option<string>): map<string, string>
  {
    attributes["projectId" := projectId]["typeName" := typeName]
              ["methodName" := methodName]["skipReason" := NullToEmpty(skipReason)]
  }

  /** ReadFromXml: an InvalidOperationException unless the parent element
      is an xUnit.net class; null when the project id no longer resolves;
      otherwise get-or-create of the stored type, method and skip reason
      under that class and project. */
  function ReadFromXml(attributes: map<string, string>, parentElement: ElementRef,
                       registry: ProjectRegistry): (r: Result<Option<GetOrCreateTestMethod>>)
    ensures !parentElement.ClassRef? ==> r == Err(InvalidOperation)
    ensures parentElement.ClassRef? && GetAttribute(attributes, "projectId") !in registry ==> r == Ok(None)
    ensures var projectId := GetAttribute(attributes, "projectId");
      parentElement.ClassRef? && projectId in registry && registry[projectId].OtherProjectItem? ==>
        r == Err(InvalidCast)
    ensures var projectId := GetAttribute(attributes, "projectId");
      parentElement.ClassRef? && projectId in registry && registry[projectId].ProjectItem? ==>
        r == Ok(Some(GetOrCreateTestMethod(registry[projectId].project, parentElement.cls,
                                           GetAttribute(attributes, "typeName"), GetAttribute(attributes, "methodName"),
                                           GetAttribute(attributes, "skipReason"))))
    ensures r.Ok? && r.value.Some? ==>
      && parentElement.ClassRef?
      && r.value.value.testClass == parentElement.cls
      && registry[GetAttribute(attributes, "projectId")] == ProjectItem(r.value.value.project)
      && r.value.value.typeName == GetAttribute(attributes, "typeName")
      && r.value.value.methodName == GetAttribute(attributes, "methodName")
      && r.value.value.skipReason == GetAttribute(attributes, "skipReason")
  {
    if !parentElement.ClassRef? then Err(InvalidOperation)
    else
      var typeName := GetAttribute(attributes, "typeName");
      var methodName := GetAttribute(attributes, "methodName");
      var projectId := GetAttribute(attributes, "projectId");
      var skipReason := GetAttribute(attributes, "skipReason");
      match FindProject(registry, projectId)
      case Err(e) => Err(e)
      case Ok(None) => Ok(None)
      case Ok(Some(project)) =>
        Ok(Some(GetOrCreateTestMethod(project, parentElement.cls, typeName, methodName, skipReason)))
  }

  /** Writing an element and reading the record back under its class and a
      registry that still knows its project asks for an element with the
      same type name, method name and skip reason (a null reason comes back
      empty), hence an element equal to it and just as explicit. */
  lemma {:induction false} WriteThenRead(e: XunitTestMethodElement, attributes: map<string, string>,
                                         registry: ProjectRegistry)
    requires e.parent != null
    requires e.project.persistentId in registry && registry[e.project.persistentId] == ProjectItem(e.project)
    ensures var record := MethodRecord(attributes, e.project.persistentId, e.typeName, e.methodName, e.explicitReason);
      ReadFromXml(record, ClassRef(e.parent), registry) ==
        Ok(Some(GetOrCreateTestMethod(e.project, e.parent, e.typeName, e.methodName, NullToEmpty(e.explicitReason))))
    ensures IsNullOrEmpty(Some(NullToEmpty(e.explicitReason))) == !e.Explicit()
  {
    var record := MethodRecord(attributes, e.project.persistentId, e.typeName, e.methodName, e.explicitReason);
    assert GetAttribute(record, "projectId") == e.project.persistentId;
    assert GetAttribute(record, "typeName") == e.typeName;
    assert GetAttribute(record, "methodName") == e.methodName;
    assert GetAttribute(record, "skipReason") == NullToEmpty(e.explicitReason);
  }

  /** Element equality is by type and method name alone: the id, the
      project and the skip reason play no part, and it is an equivalence. */
  lemma EqualsByNames(a: XunitTestMethodElement, b: XunitTestMethodElement, c: XunitTestMethodElement)
    ensures a.Equals(MethodRef(b)) <==> a.typeName == b.typeName && a.methodName == b.methodName
    ensures a.Equals(MethodRef(a))
    ensures a.Equals(MethodRef(b)) ==> b.Equals(MethodRef(a))
    ensures a.Equals(MethodRef(b)) && b.Equals(MethodRef(c)) ==> a.Equals(MethodRef(c))
    ensures !a.Equals(NullElement) && !a.Equals(OtherElement)
  {
  }

  /** The method task is explicit when the explicit list holds any method
      element with the same names, not only this very object. */
  lemma {:induction false} ExplicitByName(e: XunitTestMethodElement, other: XunitTestMethodElement,
                                          explicitElements: seq<ElementRef>)
    requires e.parent != null
    requires MethodRef(other) in explicitElements
    requires other.typeName == e.typeName && other.methodName == e.methodName
    ensures e.GetTaskSequence(explicitElements).value[2].task.run.explicitly
  {
    var i :| 0 <= i < |explicitElements| && explicitElements[i] == MethodRef(other);
    assert ItemEquals(explicitElements[i], MethodRef(e));
  }

  /** Two method elements of the same class yield the same assembly task
      and equal class tasks when they agree on the type name, so the host
      merges them into one assembly load and one class load. */
  lemma SiblingsShareLoadTasks(a: XunitTestMethodElement, b: XunitTestMethodElement,
                               explicitElements: seq<ElementRef>)
    requires a.parent != null && a.parent == b.parent && a.typeName == b.typeName
    ensures a.GetTaskSequence(explicitElements).value[0] == b.GetTaskSequence(explicitElements).value[0]
    ensures a.GetTaskSequence(explicitElements).value[1].task.cls.Equals(
              Some(b.GetTaskSequence(explicitElements).value[1].task))
  {
  }
}
