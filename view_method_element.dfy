/** XunitViewTestMethodElement (ReSharper 6.0 IDE): the element the unit
    test explorer shows for a test method. Its record carries the element id
    but no skip reason, its explicit reason is always empty, and it looks up its declared
    method with an explicit loop over the members of its name. */
module ViewMethodElements {
  import opened Common
  import opened HostModel

  /** XunitViewTestClassElement, reduced to its type name. */
  class XunitViewTestClassElement {
    const typeName: string

    constructor (typeName: string)
      ensures this.typeName == typeName
    {
      this.typeName := typeName;
    }
  }

  /** A reference of type IUnitTestViewElement: null, an xUnit.net view class
      or view method element, or an element of another kind. */
  datatype ViewElementRef =
    | NullView
    | ViewClassRef(cls: XunitViewTestClassElement)
    | ViewMethodRef(element: XunitViewTestMethodElement)
    | OtherView

  /** What ReadFromXml asks the provider to get or create. */
  datatype GetOrCreateViewTestMethod =
    GetOrCreateViewTestMethod(id: string, project: Project, testClass: XunitViewTestClassElement,
                              typeName: string, methodName: string, isSkip: bool)

  class XunitViewTestMethodElement {
    const id: string
    const typeName: string
    const methodName: string
    /** The skip flag handed to the base element. */
    const isSkip: bool
    /** Class: the view class element given at construction. */
    const testClass: XunitViewTestClassElement
    /** The project the element's project pointer was created from. */
    const project: Project

    constructor (testClass: XunitViewTestClassElement, project: Project, id: string,
                 typeName: string, methodName: string, isSkip: bool)
      ensures this.testClass == testClass && this.project == project
      ensures this.id == id && this.typeName == typeName && this.methodName == methodName
      ensures this.isSkip == isSkip
    {
      this.testClass := testClass;
      this.project := project;
      this.id := id;
      this.typeName := typeName;
      this.methodName := methodName;
      this.isSkip := isSkip;
    }

    /** GetProject: the project the pointer designates while it is still
        loaded, null once it is gone. */
    function GetProject(projectLive: bool): (r: Option<Project>)
      ensures r.Some? <==> projectLive
      ensures r.Some? ==> r.value == project
    {
      if projectLive then Some(project) else None
    }

    /** WriteToXml: sets id, then projectId, typeName and methodName. When
        the project is gone, GetProject().GetPersistentID() throws after the
        id is already written. */
    method WriteToXml(element: XmlElement, projectLive: bool) returns (outcome: Outcome)
      modifies element
      ensures !projectLive ==>
        && outcome == Fail(NullReference)
        && element.attributes == old(element.attributes)["id" := id]
      ensures projectLive ==>
        && outcome == Pass
        && element.attributes == ViewMethodRecord(old(element.attributes), id, project.persistentId,
                                                  typeName, methodName)
    {
      element.SetAttribute("id", id);
      var liveProject := GetProject(projectLive);
      if liveProject.None? {
        return Fail(NullReference);
      }
      element.SetAttribute("projectId", liveProject.value.persistentId);
      element.SetAttribute("typeName", typeName);
      element.SetAttribute("methodName", methodName);
      outcome := Pass;
    }

    /** Equals(IUnitTestViewElement), through `other as
        XunitViewTestMethodElement`: false unless the other element is a view
        method element that the base element's Equals accepts and whose type
        name and method name agree. */
    predicate Equals(other: ViewElementRef,
                     baseEquals: (XunitViewTestMethodElement, XunitViewTestMethodElement) -> bool)
      ensures Equals(other, baseEquals) ==> other.ViewMethodRef? && baseEquals(this, other.element)
      ensures other == ViewMethodRef(this) ==> (Equals(other, baseEquals) <==> baseEquals(this, this))
    {
      other.ViewMethodRef? && baseEquals(this, other.element) &&
      other.element.typeName == typeName && other.element.methodName == methodName
    }

    /** GetDeclaredElement: walks the members of the method's name in
        enumeration order and returns the first that passes the filter, or
        null; it picks exactly the member the query form picks. */
    method GetDeclaredElement(projectLive: bool, psi: PsiSnapshot) returns (r: Option<TypeMember>)
      ensures r == DeclaredMethodOf(GetDeclaredType(GetProject(projectLive), psi, typeName), methodName)
    {
      var declaredType := GetDeclaredType(GetProject(projectLive), psi, typeName);
      if declaredType.None? {
        return None;
      }
      var members := EnumerateMembers(declaredType.value, methodName);
      var i := 0;
      while i < |members|
        invariant 0 <= i <= |members|
        invariant FirstCandidate(members[i..]) == FirstCandidate(members)
      {
        var member := members[i];
        if IsTestMethodCandidate(member) {
          return Some(member);
        }
        assert members[i..][1..] == members[i + 1..];
        i := i + 1;
      }
      return None;
    }

    /** GetDisposition: invalid when the declared method is missing or
        invalid; otherwise the locations of its declarations that lie in a
        file. */
    method GetDisposition(projectLive: bool, psi: PsiSnapshot) returns (r: Disposition)
      ensures var declared := DeclaredMethodOf(GetDeclaredType(GetProject(projectLive), psi, typeName), methodName);
        && (r.InvalidDisposition? <==> declared.None? || !declared.value.isValid)
        && (r.Located? ==> r.locations == Locations(declared.value.declarations))
    {
      var element := GetDeclaredElement(projectLive, psi);
      if element.None? || !element.value.isValid {
        return InvalidDisposition;
      }
      r := Located(Locations(element.value.declarations));
    }

    /** ExplicitReason: always the empty string. */
    function ExplicitReason(): (r: string)
      ensures IsNullOrEmpty(Some(r))
    {
      ""
    }
  }

  /** The attributes of a view method element's record, over those the XML
      element already has. */
  function ViewMethodRecord(attributes: map<string, string>, id: string, projectId: string,
                            typeName: string, methodName: string): map<string, string>
  {
    attributes["id" := id]["projectId" := projectId]["typeName" := typeName]["methodName" := methodName]
  }

  /** The record consists of exactly the four attributes, with the values
      given, and leaves every other attribute (a skip reason included) as it
      was. */
  lemma ViewMethodRecordExact(attributes: map<string, string>, id: string, projectId: string,
                              typeName: string, methodName: string)
    ensures var record := ViewMethodRecord(attributes, id, projectId, typeName, methodName);
      && record.Keys == attributes.Keys + {"id", "projectId", "typeName", "methodName"}
      && record["id"] == id && record["projectId"] == projectId
      && record["typeName"] == typeName && record["methodName"] == methodName
      && forall k :: k in attributes && k !in {"id", "projectId", "typeName", "methodName"} ==>
           record[k] == attributes[k]
  {
  }

  /** ReadFromXml: an InvalidOperationException unless the parent element
      is an xUnit.net view class; null when the project id no longer
      resolves; otherwise get-or-create of the stored id, type name and
      method name, never skipped. */
  function ReadFromXml(attributes: map<string, string>, parentElement: ViewElementRef,
                       registry: ProjectRegistry): (r: Result<Option<GetOrCreateViewTestMethod>>)
    ensures !parentElement.ViewClassRef? ==> r == Err(InvalidOperation)
    ensures parentElement.ViewClassRef? && GetAttribute(attributes, "projectId") !in registry ==> r == Ok(None)
    ensures var projectId := GetAttribute(attributes, "projectId");
      parentElement.ViewClassRef? && projectId in registry && registry[projectId].OtherProjectItem? ==>
        r == Err(InvalidCast)
    ensures var projectId := GetAttribute(attributes, "projectId");
      parentElement.ViewClassRef? && projectId in registry && registry[projectId].ProjectItem? ==>
        r == Ok(Some(GetOrCreateViewTestMethod(GetAttribute(attributes, "id"), registry[projectId].project,
                                               parentElement.cls, GetAttribute(attributes, "typeName"),
                                               GetAttribute(attributes, "methodName"), false)))
    ensures r.Ok? && r.value.Some? ==>
      && parentElement.ViewClassRef?
      && r.value.value.testClass == parentElement.cls
      && registry[GetAttribute(attributes, "projectId")] == ProjectItem(r.value.value.project)
      && r.value.value.id == GetAttribute(attributes, "id")
      && r.value.value.typeName == GetAttribute(attributes, "typeName")
      && r.value.value.methodName == GetAttribute(attributes, "methodName")
      && !r.value.value.isSkip
  {
    if !parentElement.ViewClassRef? then Err(InvalidOperation)
    else
      var id := GetAttribute(attributes, "id");
      var typeName := GetAttribute(attributes, "typeName");
      var methodName := GetAttribute(attributes, "methodName");
      var projectId := GetAttribute(attributes, "projectId");
      match FindProject(registry, projectId)
      case Err(e) => Err(e)
      case Ok(None) => Ok(None)
      case Ok(Some(p)) => Ok(Some(GetOrCreateViewTestMethod(id, p, parentElement.cls, typeName, methodName, false)))
  }

  /** Writing a view element and reading the record back under its class,
      while the registry still knows its project, asks for an element with
      the same id, project, type name and method name, but not skipped:
      the skip flag does not survive the round trip. */
  lemma {:induction false} WriteThenRead(e: XunitViewTestMethodElement, attributes: map<string, string>,
                                         registry: ProjectRegistry)
    requires e.project.persistentId in registry && registry[e.project.persistentId] == ProjectItem(e.project)
    ensures ReadFromXml(ViewMethodRecord(attributes, e.id, e.project.persistentId, e.typeName, e.methodName),
                        ViewClassRef(e.testClass), registry) ==
      Ok(Some(GetOrCreateViewTestMethod(e.id, e.project, e.testClass, e.typeName, e.methodName, false)))
  {
    var record := ViewMethodRecord(attributes, e.id, e.project.persistentId, e.typeName, e.methodName);
    assert GetAttribute(record, "id") == e.id;
    assert GetAttribute(record, "projectId") == e.project.persistentId;
    assert GetAttribute(record, "typeName") == e.typeName;
    assert GetAttribute(record, "methodName") == e.methodName;
  }

  /** Equality: nothing but a view method element is equal; an equal element
      has the same names and is accepted by the base Equals; and when the
      base Equals is an equivalence relation, so is this one. */
  lemma EqualsProperties(a: XunitViewTestMethodElement, b: XunitViewTestMethodElement, c: XunitViewTestMethodElement,
                         baseEquals: (XunitViewTestMethodElement, XunitViewTestMethodElement) -> bool)
    ensures !a.Equals(NullView, baseEquals) && !a.Equals(OtherView, baseEquals)
    ensures forall k :: !a.Equals(ViewClassRef(k), baseEquals)
    ensures a.Equals(ViewMethodRef(b), baseEquals) <==>
      baseEquals(a, b) && a.typeName == b.typeName && a.methodName == b.methodName
    ensures baseEquals(a, a) ==> a.Equals(ViewMethodRef(a), baseEquals)
    ensures (baseEquals(a, b) ==> baseEquals(b, a)) ==>
      (a.Equals(ViewMethodRef(b), baseEquals) ==> b.Equals(ViewMethodRef(a), baseEquals))
    ensures (baseEquals(a, b) && baseEquals(b, c) ==> baseEquals(a, c)) ==>
      (a.Equals(ViewMethodRef(b), baseEquals) && b.Equals(ViewMethodRef(c), baseEquals) ==>
         a.Equals(ViewMethodRef(c), baseEquals))
  {
  }
}
