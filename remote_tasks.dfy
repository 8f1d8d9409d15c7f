/** The remote tasks handed to the xUnit.net runner process: the class task
    of XunitTestClassTask.cs in full, and the assembly and method tasks as
    opaque records of the arguments they are built from. */
module RemoteTasks {
  import opened Common

  /** XunitTaskRunner.RunnerId, which every xUnit.net task carries. */
  const XunitRunnerId: string := "xUnit"

  /** The names of the XML attributes of a class task (AttributeNames). */
  const ProjectIdAttribute: string := "ProjectId"
  const TypeNameAttribute: string := "TypeName"
  const ExplicitlyAttribute: string := "Explicitly"

  /** XunitTestAssemblyTask: loads the assembly at the given location. */
  datatype XunitTestAssemblyTask = XunitTestAssemblyTask(assemblyLocation: string)

  /** XunitTestMethodTask: runs one method of a loaded class. */
  datatype XunitTestMethodTask =
    XunitTestMethodTask(projectId: string, typeName: string, methodName: string, explicitly: bool)

  /** XunitTestClassTask: loads one class of a loaded assembly. Its fields
      have private setters that only the constructors assign, so the task is
      an immutable value. `runnerId` is the RemoteTask base's runner id. */
  datatype XunitTestClassTask =
    XunitTestClassTask(runnerId: string, projectId: string, typeName: string, explicitly: bool)
  {
    /** Equals(XunitTestClassTask): false for null; otherwise ProjectId,
        TypeName and Explicitly all agree. The same reference has equal
        fields, so the ReferenceEquals shortcut gives the same answer. */
    predicate EqualsTask(other: Option<XunitTestClassTask>)
      ensures EqualsTask(other) ==> other.Some?
      ensures other == Some(this) ==> EqualsTask(other)
    {
      other.Some? &&
      projectId == other.value.projectId &&
      typeName == other.value.typeName &&
      explicitly == other.value.explicitly
    }

    /** Equals(RemoteTask) and Equals(object): `other as XunitTestClassTask`,
        then EqualsTask; null and every other kind of task are unequal. */
    predicate Equals(other: Option<RemoteTask>)
      ensures Equals(other) ==> other.Some? && other.value.ClassTask? && EqualsTask(Some(other.value.cls))
      ensures other == Some(ClassTask(this)) ==> Equals(other)
    {
      EqualsTask(if other.Some? && other.value.ClassTask? then Some(other.value.cls) else None)
    }

    /** GetHashCode, in unchecked 32-bit arithmetic. The fields are never
        null, so the null branches give way to the strings' own hash, which
        is abstract here; Explicitly.GetHashCode() is 1 for true, 0 for false. */
    function HashCode(stringHash: string -> bv32): (r: bv32)
      ensures r == CombineHash(CombineHash(stringHash(projectId), stringHash(typeName)), 0) ^ (if explicitly then 1 else 0)
    {
      var result := stringHash(projectId);
      var result' := CombineHash(result, stringHash(typeName));
      CombineHash(result', if explicitly then 1 else 0)
    }

    /** IsMeaningfulTask: the class task always counts as real work. */
    function IsMeaningfulTask(): (r: bool)
      ensures r
    {
      true
    }
  }

  /** One step of GetHashCode: `(result * 397) ^ next`, wrapping at 32 bits. */
  function CombineHash(result: bv32, next: bv32): bv32
  {
    (result * 397) ^ next
  }

  /** The tasks of the xUnit.net runner. */
  datatype RemoteTask =
    | AssemblyTask(assembly: XunitTestAssemblyTask)
    | ClassTask(cls: XunitTestClassTask)
    | MethodTask(run: XunitTestMethodTask)

  /** UnitTestTask: a remote task and the test element it is bound to (none
      for the assembly task). */
  datatype UnitTestTask<E> = UnitTestTask(element: Option<E>, task: RemoteTask)

  /** The constructor XunitTestClassTask(projectId, typeName, explicitly):
      ArgumentNullException for a null projectId, then for a null typeName;
      otherwise the three arguments, unchanged, under the xUnit runner id. */
  function NewClassTask(projectId: Option<string>, typeName: Option<string>, explicitly: bool)
    : (r: Result<XunitTestClassTask>)
    ensures projectId.None? ==> r == Err(ArgumentNull("projectId"))
    ensures projectId.Some? && typeName.None? ==> r == Err(ArgumentNull("typeName"))
    ensures r.Ok? <==> projectId.Some? && typeName.Some?
    ensures r.Ok? ==>
      && r.value.runnerId == XunitRunnerId
      && r.value.projectId == projectId.value
      && r.value.typeName == typeName.value
      && r.value.explicitly == explicitly
  {
    if projectId.None? then Err(ArgumentNull("projectId"))
    else if typeName.None? then Err(ArgumentNull("typeName"))
    else Ok(XunitTestClassTask(XunitRunnerId, projectId.value, typeName.value, explicitly))
  }

  /** The attributes SaveXml writes over those already on the element.
      What base.SaveXml writes belongs to RemoteTask and is not modelled. */
  function SavedAttributes(t: XunitTestClassTask, attributes: map<string, string>): map<string, string>
  {
    attributes[ProjectIdAttribute := t.projectId]
              [TypeNameAttribute := t.typeName]
              [ExplicitlyAttribute := BoolToString(t.explicitly)]
  }

  /** SaveXml: sets the three attributes on the element in place. */
  method SaveXml(t: XunitTestClassTask, element: XmlElement)
    modifies element
    ensures element.attributes == SavedAttributes(t, old(element.attributes))
  {
    element.SetAttribute(ProjectIdAttribute, t.projectId);
    element.SetAttribute(TypeNameAttribute, t.typeName);
    element.SetAttribute(ExplicitlyAttribute, BoolToString(t.explicitly));
  }

  /** The rehydrating constructor XunitTestClassTask(XmlElement): reads the
      three attributes back, parsing Explicitly with bool.Parse (a
      FormatException for text that is not a boolean). The runner id is what
      the RemoteTask base constructor restores from the element. */
  function ClassTaskFromXml(attributes: map<string, string>, baseRunnerId: string)
    : (r: Result<XunitTestClassTask>)
    ensures r.Ok? ==>
      && r.value.runnerId == baseRunnerId
      && r.value.projectId == GetAttribute(attributes, ProjectIdAttribute)
      && r.value.typeName == GetAttribute(attributes, TypeNameAttribute)
      && ParseBool(GetAttribute(attributes, ExplicitlyAttribute)) == Ok(r.value.explicitly)
    ensures r.Ok? <==> ParseBool(GetAttribute(attributes, ExplicitlyAttribute)).Ok?
    ensures r.Err? ==> r.error == Format
  {
    var projectId := GetAttribute(attributes, ProjectIdAttribute);
    var typeName := GetAttribute(attributes, TypeNameAttribute);
    match ParseBool(GetAttribute(attributes, ExplicitlyAttribute))
    case Ok(explicitly) => Ok(XunitTestClassTask(baseRunnerId, projectId, typeName, explicitly))
    case Err(e) => Err(e)
  }

  /** Saving a task and rehydrating it from the element gives a task equal
      to the original, whatever attributes the element already held; with
      the runner id restored by the base class it is the same value. */
  lemma {:induction false} SaveThenRehydrate(t: XunitTestClassTask, attributes: map<string, string>)
    ensures ClassTaskFromXml(SavedAttributes(t, attributes), t.runnerId) == Ok(t)
    ensures t.EqualsTask(Some(ClassTaskFromXml(SavedAttributes(t, attributes), t.runnerId).value))
  {
    var saved := SavedAttributes(t, attributes);
    assert GetAttribute(saved, ProjectIdAttribute) == t.projectId;
    assert GetAttribute(saved, TypeNameAttribute) == t.typeName;
    assert GetAttribute(saved, ExplicitlyAttribute) == BoolToString(t.explicitly);
    ParseBoolToString(t.explicitly);
  }

  /** Class-task equality holds exactly when ProjectId, TypeName and
      Explicitly agree; tasks that differ only in Explicitly are distinct. */
  lemma EqualsIffFieldsMatch(a: XunitTestClassTask, b: XunitTestClassTask)
    ensures a.Equals(Some(ClassTask(b))) <==>
      a.projectId == b.projectId && a.typeName == b.typeName && a.explicitly == b.explicitly
    ensures !a.Equals(Some(ClassTask(a.(explicitly := !a.explicitly))))
  {
  }

  /** Equality is false for null and for tasks of another kind, and true
      for the task itself. */
  lemma EqualsNullOtherAndSelf(t: XunitTestClassTask, a: XunitTestAssemblyTask, m: XunitTestMethodTask)
    ensures !t.Equals(None) && !t.EqualsTask(None)
    ensures !t.Equals(Some(AssemblyTask(a))) && !t.Equals(Some(MethodTask(m)))
    ensures t.Equals(Some(ClassTask(t)))
  {
  }

  /** Equality is an equivalence on class tasks, which the host needs to
      merge task lists into one tree. */
  lemma EqualsIsEquivalence(a: XunitTestClassTask, b: XunitTestClassTask, c: XunitTestClassTask)
    ensures a.EqualsTask(Some(a))
    ensures a.EqualsTask(Some(b)) ==> b.EqualsTask(Some(a))
    ensures a.EqualsTask(Some(b)) && b.EqualsTask(Some(c)) ==> a.EqualsTask(Some(c))
  {
  }

  /** Equal tasks have equal hash codes, whatever the string hash is: the
      hash reads exactly the compared fields, never the runner id. */
  lemma EqualTasksHaveEqualHashCodes(a: XunitTestClassTask, b: XunitTestClassTask, stringHash: string -> bv32)
    requires a.Equals(Some(ClassTask(b)))
    ensures a.HashCode(stringHash) == b.HashCode(stringHash)
  {
  }

  /** The Explicitly flag always changes the hash code (its last bit). */
  lemma ExplicitlyChangesHashCode(t: XunitTestClassTask, stringHash: string -> bv32)
    ensures t.(explicitly := true).HashCode(stringHash) != t.(explicitly := false).HashCode(stringHash)
  {
  }
}
