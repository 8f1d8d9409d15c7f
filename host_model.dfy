/** What the ReSharper 6 test elements look up in their host: the project
    registry, the PSI declarations cache, and the members, declarations and
    source files of a declared type. All of it is plain input data here.
    On top of it: the test-method-candidate filter, the element's
    disposition (its source locations) and its project files. */
module HostModel {
  import opened Common

  /** A project, known by its persistent id. */
  datatype Project = Project(persistentId: string)

  /** What ProjectUtil.FindProjectElementByPersistentID can find: a project
      or some other project-model element. */
  datatype ProjectModelElement = ProjectItem(project: Project) | OtherProjectItem

  /** The solution's project-model elements, by persistent id. */
  type ProjectRegistry = map<string, ProjectModelElement>

  /** `(IProject)ProjectUtil.FindProjectElementByPersistentID(solution, id)`:
      null when nothing has the id, the project when a project has it, and
      an InvalidCastException when another kind of element has it. */
  function FindProject(registry: ProjectRegistry, id: string): (r: Result<Option<Project>>)
    ensures id !in registry ==> r == Ok(None)
    ensures r == Ok(None) ==> id !in registry
    ensures (exists p :: r == Ok(Some(p))) <==> id in registry && registry[id].ProjectItem?
    ensures r.Ok? && r.value.Some? ==> registry[id] == ProjectItem(r.value.value)
    ensures id in registry && registry[id].OtherProjectItem? ==> r == Err(InvalidCast)
  {
    if id !in registry then Ok(None)
    else match registry[id]
      case ProjectItem(p) => Ok(Some(p))
      case OtherProjectItem => Err(InvalidCast)
  }

  type ProjectFile = string

  datatype TextRange = TextRange(startOffset: int, endOffset: int)

  /** A declaration of a member: the file containing it (null for a
      declaration outside any file) and its name and full ranges. */
  datatype Declaration = Declaration(containingFile: Option<ProjectFile>, nameRange: TextRange, range: TextRange)

  /** AccessibilityDomain.AccessibilityDomainType */
  datatype AccessibilityDomainType =
    | PublicDomain | InternalDomain | ProtectedDomain | ProtectedOrInternalDomain
    | ProtectedAndInternalDomain | PrivateDomain | NoneDomain

  /** A member of a declared type, with what the PSI says about it. */
  datatype TypeMember = TypeMember(
    shortName: string,
    isMethod: bool,
    isAbstract: bool,
    typeParameterCount: nat,
    accessibility: AccessibilityDomainType,
    isValid: bool,
    declarations: seq<Declaration>,
    sourceFiles: seq<ProjectFile>)

  /** A declared type: whether its language is case-sensitive, its members
      in enumeration order, and its source files. */
  datatype TypeElement = TypeElement(caseSensitiveName: bool, members: seq<TypeMember>, sourceFiles: seq<ProjectFile>)

  type PsiModule = string

  /** The PSI: each project's primary module, and the declarations cache
      that finds a type element by module and CLR type name. */
  datatype PsiSnapshot = PsiSnapshot(
    primaryModules: map<Project, PsiModule>,
    declarationsCache: map<(PsiModule, string), TypeElement>)

  /** GetDeclaredType: null without a project, null without a primary PSI
      module, otherwise what the declarations cache holds for the type name. */
  function GetDeclaredType(project: Option<Project>, psi: PsiSnapshot, typeName: string): (r: Option<TypeElement>)
    ensures r.Some? <==>
      project.Some? && project.value in psi.primaryModules &&
      (psi.primaryModules[project.value], typeName) in psi.declarationsCache
    ensures r.Some? ==> r.value == psi.declarationsCache[(psi.primaryModules[project.value], typeName)]
  {
    if project.None? || project.value !in psi.primaryModules then None
    else
      var key := (psi.primaryModules[project.value], typeName);
      if key in psi.declarationsCache then Some(psi.declarationsCache[key]) else None
  }

  /** Whether a member's name matches, in the type's own letter-case rules. */
  predicate NameMatches(t: TypeElement, memberName: string, name: string)
  {
    if t.caseSensitiveName then memberName == name else EqualsIgnoreCase(memberName, name)
  }

  /** EnumerateMembers(name, caseSensitive): the members of that name, in
      enumeration order. */
  function EnumerateMembers(t: TypeElement, name: string): (r: seq<TypeMember>)
    ensures forall m :: m in r <==> m in t.members && NameMatches(t, m.shortName, name)
  {
    EnumerateNamed(t, t.members, name)
  }

  function EnumerateNamed(t: TypeElement, members: seq<TypeMember>, name: string): (r: seq<TypeMember>)
    ensures forall m :: m in r <==> m in members && NameMatches(t, m.shortName, name)
  {
    if |members| == 0 then []
    else if NameMatches(t, members[0].shortName, name) then [members[0]] + EnumerateNamed(t, members[1..], name)
    else EnumerateNamed(t, members[1..], name)
  }

  /** The test-method-candidate filter: a method, not abstract, without type
      parameters, public or internal. */
  predicate IsTestMethodCandidate(m: TypeMember)
    ensures IsTestMethodCandidate(m) ==> m.isMethod && !m.isAbstract && m.typeParameterCount == 0
    ensures IsTestMethodCandidate(m) ==> m.accessibility in {PublicDomain, InternalDomain}
  {
    m.isMethod && !m.isAbstract && m.typeParameterCount <= 0 &&
    (m.accessibility == PublicDomain || m.accessibility == InternalDomain)
  }

  /** `(from member in members where IsTestMethodCandidate(member) select
      member).FirstOrDefault()`: the first candidate, or null if there is
      none. */
  function FirstCandidate(members: seq<TypeMember>): (r: Option<TypeMember>)
    ensures r.None? <==> forall i :: 0 <= i < |members| ==> !IsTestMethodCandidate(members[i])
    ensures r.Some? ==>
      exists i :: 0 <= i < |members| && members[i] == r.value && IsTestMethodCandidate(members[i]) &&
                  forall j :: 0 <= j < i ==> !IsTestMethodCandidate(members[j])
  {
    if |members| == 0 then None
    else if IsTestMethodCandidate(members[0]) then Some(members[0])
    else
      var r := FirstCandidate(members[1..]);
      assert r.Some? ==> (exists i :: 1 <= i < |members| && members[i] == r.value && IsTestMethodCandidate(members[i]) &&
                                      forall j :: 0 <= j < i ==> !IsTestMethodCandidate(members[j])) by {
        if r.Some? {
          var i :| 0 <= i < |members[1..]| && members[1..][i] == r.value && IsTestMethodCandidate(members[1..][i]) &&
                   forall j :: 0 <= j < i ==> !IsTestMethodCandidate(members[1..][j]);
          assert members[i + 1] == r.value;
          forall j | 0 <= j < i + 1 ensures !IsTestMethodCandidate(members[j]) {
            if j > 0 { assert members[j] == members[1..][j - 1]; }
          }
        }
      }
      assert r.None? ==> forall i :: 0 <= i < |members| ==> !IsTestMethodCandidate(members[i]) by {
        if r.None? {
          forall i | 0 <= i < |members| ensures !IsTestMethodCandidate(members[i]) {
            if i > 0 { assert members[i] == members[1..][i - 1]; }
          }
        }
      }
      r
  }

  /** Whether a member is the kind GetDeclaredElement looks for: of the
      method's name and passing the candidate filter. */
  predicate Eligible(t: TypeElement, name: string, m: TypeMember)
  {
    NameMatches(t, m.shortName, name) && IsTestMethodCandidate(m)
  }

  /** Filtering by name keeps enumeration order: the first candidate among
      the members of a name is the member at the lowest index of the type's
      member list that has the name and passes the filter, and there is
      none exactly when no member does both. */
  lemma {:induction false} FirstCandidateOfNamed(t: TypeElement, members: seq<TypeMember>, name: string)
    ensures FirstCandidate(EnumerateNamed(t, members, name)).None? <==>
      forall k :: 0 <= k < |members| ==> !Eligible(t, name, members[k])
    ensures var r := FirstCandidate(EnumerateNamed(t, members, name));
      r.Some? ==>
        exists k :: 0 <= k < |members| && members[k] == r.value && Eligible(t, name, members[k]) &&
                    forall j :: 0 <= j < k ==> !Eligible(t, name, members[j])
  {
    if |members| > 0 {
      var m0, rest := members[0], members[1..];
      FirstCandidateOfNamed(t, rest, name);
      var named := EnumerateNamed(t, rest, name);
      if NameMatches(t, m0.shortName, name) {
        assert ([m0] + named)[1..] == named;
      }
      var r := FirstCandidate(EnumerateNamed(t, members, name));
      if Eligible(t, name, m0) {
        assert r == Some(m0);
      } else {
        assert r == FirstCandidate(named);
        forall k | 1 <= k < |members| ensures members[k] == rest[k - 1] { }
        if r.Some? {
          var k :| 0 <= k < |rest| && rest[k] == r.value && Eligible(t, name, rest[k]) &&
                   forall j :: 0 <= j < k ==> !Eligible(t, name, rest[j]);
          assert members[k + 1] == r.value;
          forall j | 0 <= j < k + 1 ensures !Eligible(t, name, members[j]) {
            if j > 0 { assert members[j] == rest[j - 1]; }
          }
        }
      }
    }
  }

  /** GetDeclaredElement in terms of the type's member list: the declared
      element is the earliest member that has the method's name and passes
      the filter, and null when no member does. */
  lemma DeclaredMethodIsEarliest(t: TypeElement, methodName: string)
    ensures DeclaredMethodOf(Some(t), methodName).None? <==>
      forall k :: 0 <= k < |t.members| ==> !Eligible(t, methodName, t.members[k])
    ensures var r := DeclaredMethodOf(Some(t), methodName);
      r.Some? ==>
        exists k :: 0 <= k < |t.members| && t.members[k] == r.value && Eligible(t, methodName, t.members[k]) &&
                    forall j :: 0 <= j < k ==> !Eligible(t, methodName, t.members[j])
  {
    FirstCandidateOfNamed(t, t.members, methodName);
  }

  /** A method that is abstract, generic, or neither public nor internal is
      never the declared element. */
  lemma FilterRejects(members: seq<TypeMember>, m: TypeMember)
    requires !m.isMethod || m.isAbstract || m.typeParameterCount > 0 ||
             (m.accessibility != PublicDomain && m.accessibility != InternalDomain)
    ensures FirstCandidate(members) != Some(m)
  {
  }

  /** GetDeclaredElement: null when the type is not found; otherwise the
      first candidate among the members of the method's name. */
  function DeclaredMethodOf(declaredType: Option<TypeElement>, methodName: string): (r: Option<TypeMember>)
    ensures declaredType.None? ==> r.None?
    ensures r.Some? ==>
      && r.value in declaredType.value.members
      && NameMatches(declaredType.value, r.value.shortName, methodName)
      && IsTestMethodCandidate(r.value)
    ensures declaredType.Some? ==> r == FirstCandidate(EnumerateMembers(declaredType.value, methodName))
  {
    match declaredType
    case None => None
    case Some(t) => FirstCandidate(EnumerateMembers(t, methodName))
  }

  /** UnitTestElementLocation: a project file and the name and full ranges
      of a declaration in it. */
  datatype UnitTestElementLocation = UnitTestElementLocation(projectFile: ProjectFile, nameRange: TextRange, range: TextRange)

  /** UnitTestElementDisposition: the invalid disposition, or the locations
      of a resolved element. */
  datatype Disposition = InvalidDisposition | Located(locations: seq<UnitTestElementLocation>)

  /** The location of each declaration that has a containing file, in
      declaration order. */
  function Locations(declarations: seq<Declaration>): (r: seq<UnitTestElementLocation>)
    ensures |r| <= |declarations|
    ensures (forall i :: 0 <= i < |declarations| ==> declarations[i].containingFile.Some?) ==> |r| == |declarations|
    ensures (forall i :: 0 <= i < |declarations| ==> declarations[i].containingFile.None?) ==> r == []
  {
    if |declarations| == 0 then []
    else
      var d := declarations[0];
      var rest := Locations(declarations[1..]);
      if d.containingFile.Some? then [UnitTestElementLocation(d.containingFile.value, d.nameRange, d.range)] + rest
      else rest
  }

  /** Locations of concatenated declaration lists concatenate: the filter
      keeps declaration order. */
  lemma {:induction false} LocationsOfAppend(a: seq<Declaration>, b: seq<Declaration>)
    ensures Locations(a + b) == Locations(a) + Locations(b)
  {
    if |a| > 0 {
      assert (a + b)[1..] == a[1..] + b;
      LocationsOfAppend(a[1..], b);
    } else {
      assert a + b == b;
    }
  }

  /** Each location comes from a declaration with a file, with that file
      and those ranges, and every such declaration gives one. */
  lemma {:induction false} LocationsExact(declarations: seq<Declaration>)
    ensures forall l :: l in Locations(declarations) <==>
      exists d :: d in declarations && d.containingFile.Some? &&
                  l == UnitTestElementLocation(d.containingFile.value, d.nameRange, d.range)
  {
    if |declarations| > 0 {
      LocationsExact(declarations[1..]);
      forall d | d in declarations[1..] ensures d in declarations { }
      forall d | d in declarations ensures d == declarations[0] || d in declarations[1..] {
        var i :| 0 <= i < |declarations| && declarations[i] == d;
        if i > 0 { assert declarations[1..][i - 1] == d; }
      }
    }
  }

  /** GetDisposition: invalid when the declared element is missing or no
      longer valid; otherwise the locations of its declarations. */
  function DispositionOf(declared: Option<TypeMember>): (r: Disposition)
    ensures r.InvalidDisposition? <==> declared.None? || !declared.value.isValid
    ensures r.Located? ==> r.locations == Locations(declared.value.declarations)
  {
    if declared.None? || !declared.value.isValid then InvalidDisposition
    else Located(Locations(declared.value.declarations))
  }

  /** GetProjectFiles: the declared type's source files when it has exactly
      one; otherwise those of the declared method, or none when there is no
      declared method. */
  function ProjectFilesOf(declaredType: Option<TypeElement>, methodName: string): (r: seq<ProjectFile>)
    ensures declaredType.Some? && |declaredType.value.sourceFiles| == 1 ==> r == declaredType.value.sourceFiles
    ensures !(declaredType.Some? && |declaredType.value.sourceFiles| == 1) ==>
      r == (match DeclaredMethodOf(declaredType, methodName)
            case None => []
            case Some(m) => m.sourceFiles)
    ensures declaredType.None? ==> r == []
  {
    if declaredType.Some? && |declaredType.value.sourceFiles| == 1 then declaredType.value.sourceFiles
    else
      match DeclaredMethodOf(declaredType, methodName)
      case None => []
      case Some(m) => m.sourceFiles
  }
}
