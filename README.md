# xUnit.net test provider for ReSharper — a Dafny model

This project models the core of the ReSharper plugin that lets ReSharper
discover and run xUnit.net tests:

- **The 5.0 test provider** (`Provider`, in `provider.dfy`). It orders unit
  test elements for display. It turns a requested element into the chain of
  remote tasks that runs it: load the assembly, load the class, run the
  method. It also decides whether a declared code element is a test, a test
  class, PropertyData theory data, or unrelated.
- **The class task** (`RemoteTasks`, in `remote_tasks.dfy`). This is the
  value the runner process receives to load one test class. It has a
  null-checking constructor, a round trip through XML attributes, equality
  over ProjectId/TypeName/Explicitly, and a hash code consistent with that
  equality. The host merges the task lists of many elements into one tree
  using exactly this equality.
- **The 6.0 method element** (`MethodElements`, in `method_element.dfy`).
  It is a class with a mutable `Parent` back-link to its class element, and
  that class element keeps the element in its set of children. The element
  also builds its task chain, resolves its declared method through the PSI,
  reports its disposition (source locations) and project files, and writes
  and reads its XML record.
- **The 6.0 IDE view method element** (`ViewMethodElements`, in
  `view_method_element.dfy`). Its XML record carries the element id but no
  skip reason, and reading it back always yields a non-skipped element. Its
  declared-method lookup is an explicit loop, proved to pick the same member
  as the 6.0 element's query.

`common.dfy` holds the shared vocabulary: null as `Option`, exceptions as
`Result`/`Outcome`, and an XML element as its attribute map. It also holds
the base-library behaviours the code relies on: `bool.ToString`,
`bool.Parse`, `Int32.CompareTo` and `string.IsNullOrEmpty`.

`host_model.dfy` holds what the elements look up in ReSharper, as plain
data:
- the project registry, keyed by persistent id;
- the PSI's primary modules and declarations cache;
- each declared type's members, declarations and source files.

The pieces the core calls but does not define are parameters of the model:
- the host's element equality;
- the culture-aware string comparer;
- xUnit.net's `MethodUtility.IsTest` and `TypeUtility.IsTestClass`;
- the string hash code;
- the base element's `Equals` in the view element;
- whether the element's project pointer still resolves to a live project.

`bool.Parse` is modelled as .NET implements it. It trims white space and
NUL characters from both ends and ignores letter case. So the `Explicitly`
attribute also accepts texts such as `" true\n"`, not only the exact
strings `"True"` and `"False"` (`Common.ParseBoolIgnoresSpaceAndCase`). Any
other text is a FormatException (`Common.ParseBoolRejectsOtherText`).

## Model

| member | source | states |
|---|---|---|
| `Common.NullToEmpty` | resharper/resharper60/xunitcontrib.runner.resharper.provider.6.0/UnitTestElements/XunitTestMethodElement.cs:203 | a null skip reason is stored as the empty string: the stored text is empty exactly when the reason is null or empty, and is the reason itself otherwise |
| `Common.CompareInt` | resharper/xunitcontrib.runner.resharper.provider.5.0/XunitTestProvider.cs:80 | `Order.CompareTo`: -1, 0 or 1 exactly when the first order is smaller, equal or larger |
| `Common.ParseBool` | resharper/src/xunitcontrib.runner.resharper.runner/XunitTestClassTask.cs:36 | the parse yields a boolean exactly when the text, with white space and NUL trimmed from both ends, is that boolean's name in some letter case; every failure is a FormatException |
| `Common.ParseBoolToString` | resharper/src/xunitcontrib.runner.resharper.runner/XunitTestClassTask.cs:36-50 | parsing the invariant text of a boolean gives the boolean back |
| `Common.ParseBoolIgnoresSpaceAndCase` | resharper/src/xunitcontrib.runner.resharper.runner/XunitTestClassTask.cs:36 | any white-space padding on either side of "True" or "False", written in any letter case, parses to that boolean (`" true\n"` is true) |
| `Common.ParseBoolOnlyAccepts` | resharper/src/xunitcontrib.runner.resharper.runner/XunitTestClassTask.cs:36 | a text parses to a boolean only if it is that boolean's name, in some letter case, with only white space before and after it |
| `Common.ParseBoolRejectsOtherText` | resharper/src/xunitcontrib.runner.resharper.runner/XunitTestClassTask.cs:36 | the parse is a FormatException if and only if the text is not a boolean name padded with white space |
| `RemoteTasks.NewClassTask` | resharper/src/xunitcontrib.runner.resharper.runner/XunitTestClassTask.cs:12-23 | ArgumentNullException("projectId") for a null project id, then ArgumentNullException("typeName") for a null type name; otherwise all three arguments stored unchanged under the xUnit.net runner id |
| `RemoteTasks.SaveXml` | resharper/src/xunitcontrib.runner.resharper.runner/XunitTestClassTask.cs:45-51 | the element's attributes become the old ones with ProjectId, TypeName and the invariant text of Explicitly set |
| `RemoteTasks.ClassTaskFromXml` | resharper/src/xunitcontrib.runner.resharper.runner/XunitTestClassTask.cs:32-37 | the rehydrated task carries the stored ProjectId and TypeName, the base's runner id, and as Explicitly the value the stored Explicitly text parses to; it exists exactly when that text parses, and otherwise the failure is a FormatException |
| `RemoteTasks.SaveThenRehydrate` | resharper/src/xunitcontrib.runner.resharper.runner/XunitTestClassTask.cs:32-51 | rehydrating what SaveXml wrote gives back the same task, which is equal to the original, whatever attributes the element held before |
| `RemoteTasks.EqualsIffFieldsMatch` | resharper/src/xunitcontrib.runner.resharper.runner/XunitTestClassTask.cs:53-61 | two class tasks are equal if and only if ProjectId, TypeName and Explicitly all agree; flipping Explicitly gives an unequal task |
| `RemoteTasks.EqualsNullOtherAndSelf` | resharper/src/xunitcontrib.runner.resharper.runner/XunitTestClassTask.cs:53-71 | equality is false for null and for assembly and method tasks, and true for the task itself |
| `RemoteTasks.EqualsIsEquivalence` | resharper/src/xunitcontrib.runner.resharper.runner/XunitTestClassTask.cs:53-61 | equality is reflexive, symmetric and transitive |
| `RemoteTasks.XunitTestClassTask.EqualsTask` | resharper/src/xunitcontrib.runner.resharper.runner/XunitTestClassTask.cs:53-61 | false for null; true for the task itself |
| `RemoteTasks.XunitTestClassTask.Equals` | resharper/src/xunitcontrib.runner.resharper.runner/XunitTestClassTask.cs:63-71 | true only for a class task that the typed Equals accepts, so false for null and for every other kind of task; true for the task itself |
| `RemoteTasks.XunitTestClassTask.HashCode` | resharper/src/xunitcontrib.runner.resharper.runner/XunitTestClassTask.cs:73-82 | the 32-bit hash of ProjectId and TypeName, multiplied by 397, with Explicitly deciding only the lowest bit by exclusive or |
| `RemoteTasks.EqualTasksHaveEqualHashCodes` | resharper/src/xunitcontrib.runner.resharper.runner/XunitTestClassTask.cs:73-82 | equal tasks have equal 32-bit hash codes, whatever the string hash is |
| `RemoteTasks.ExplicitlyChangesHashCode` | resharper/src/xunitcontrib.runner.resharper.runner/XunitTestClassTask.cs:79 | tasks that differ only in Explicitly have different hash codes |
| `RemoteTasks.XunitTestClassTask.IsMeaningfulTask` | resharper/src/xunitcontrib.runner.resharper.runner/XunitTestClassTask.cs:84-87 | a class task is always meaningful |
| `Provider.CompareUnitTestElements` | resharper/xunitcontrib.runner.resharper.provider.5.0/XunitTestProvider.cs:60-81 | 0 for equal elements; otherwise the case-insensitive type-name order; for equal type names a method sorts before a class, two classes tie, two methods go by Order; an element of another provider is an InvalidCastException |
| `Provider.CompareIsAntisymmetric` | resharper/xunitcontrib.runner.resharper.provider.5.0/XunitTestProvider.cs:60-81 | when element equality is symmetric and the string comparer antisymmetric, swapping the arguments negates the sign of the result and keeps failures failures |
| `Provider.CreateClassTask` | resharper/xunitcontrib.runner.resharper.provider.5.0/XunitTestProvider.cs:202-205 | the class task carries the class's assembly location and type name, and is explicit exactly when the class is in the explicit list |
| `Provider.CreateMethodTask` | resharper/xunitcontrib.runner.resharper.provider.5.0/XunitTestProvider.cs:207-210 | the method task carries the class's assembly location and type name and the method name, and is explicit exactly when the method is in the explicit list |
| `Provider.GetTaskSequence` | resharper/xunitcontrib.runner.resharper.provider.5.0/XunitTestProvider.cs:172-195 | a method element gives exactly three tasks: the assembly task for the class's assembly location bound to no element, the class task of `CreateClassTask` bound to the class, and the method task of `CreateMethodTask` bound to the method. Both carry the assembly location as ProjectId and the class's type name, the method task carries the method name, and each is explicit exactly when its element is in the explicit list. A class element gives no tasks. Any other element is an ArgumentException, and only such an element is |
| `Provider.SiblingMethodsShareLoadTasks` | resharper/xunitcontrib.runner.resharper.provider.5.0/XunitTestProvider.cs:146-163 | two methods of one class get the same assembly task and equal class tasks, so the merged tree loads the assembly and the class once |
| `Provider.ExplicitClassSplitsClassTasks` | resharper/xunitcontrib.runner.resharper.provider.5.0/XunitTestProvider.cs:202-205 | a request that lists the class as explicit and one that does not produce unequal class tasks |
| `Provider.PropertyDataNamesMembership` | resharper/xunitcontrib.runner.resharper.provider.5.0/XunitTestProvider.cs:262-264 | a name is among the PropertyData names exactly when some PropertyData attribute on some method carries it |
| `Provider.TheoryPropertyDataPropertyIff` | resharper/xunitcontrib.runner.resharper.provider.5.0/XunitTestProvider.cs:255-269 | a property is theory data if and only if it is static and public and a PropertyData attribute on a method of its type names it |
| `Provider.AggregateNestedIsAny` | resharper/xunitcontrib.runner.resharper.provider.5.0/XunitTestProvider.cs:275-278 | the Aggregate fold over nested types is its seed or "some nested type is a unit test element" |
| `Provider.UnitTestClassIff` | resharper/xunitcontrib.runner.resharper.provider.5.0/XunitTestProvider.cs:250-253 | an element is a unit test class if and only if it is a class that xUnit.net calls a test class, or one of its nested types is a unit test element |
| `Provider.NestedOrderIrrelevant` | resharper/xunitcontrib.runner.resharper.provider.5.0/XunitTestProvider.cs:277 | classes whose nested types are the same multiset get the same verdict |
| `Provider.ElementKindsPartition` | resharper/xunitcontrib.runner.resharper.provider.5.0/XunitTestProvider.cs:215-233 | every element is of kind Unknown or of kind TestStuff, never both; Test applies only to methods and TestContainer only to classes, and both imply TestStuff; an unlisted kind never applies |
| `Provider.IsElementOfKind` | resharper/xunitcontrib.runner.resharper.provider.5.0/XunitTestProvider.cs:215-233 | a kind outside the four named ones never matches; an element of any named kind but Unknown is a unit test element |
| `Provider.IsUnitTestElement` | resharper/xunitcontrib.runner.resharper.provider.5.0/XunitTestProvider.cs:235-248 | only methods, properties and classes qualify: a method exactly when it is a test, a property exactly when it is theory data, a class exactly when it is a unit test class |
| `Provider.IsUnitTestClass` | resharper/xunitcontrib.runner.resharper.provider.5.0/XunitTestProvider.cs:250-253 | only a class qualifies, and every class xUnit.net calls a test class does |
| `Provider.IsTheoryPropertyDataProperty` | resharper/xunitcontrib.runner.resharper.provider.5.0/XunitTestProvider.cs:255-269 | only a static public property whose containing type has methods qualifies |
| `Provider.ContainsUnitTestElement` | resharper/xunitcontrib.runner.resharper.provider.5.0/XunitTestProvider.cs:275-278 | a class without nested types contains no unit test element |
| `Provider.AggregateNested` | resharper/xunitcontrib.runner.resharper.provider.5.0/XunitTestProvider.cs:277 | once the accumulator is true the fold stays true; the fold is true only from a true seed or a non-empty list |
| `Provider.IsUnitTest` | resharper/xunitcontrib.runner.resharper.provider.5.0/XunitTestProvider.cs:280-284 | only a method qualifies, and a method exactly when `MethodUtility.IsTest` accepts it |
| `Provider.IsUnitTestContainer` | resharper/xunitcontrib.runner.resharper.provider.5.0/XunitTestProvider.cs:286-290 | only a class qualifies, and a class exactly when `TypeUtility.IsTestClass` accepts it |
| `HostModel.FindProject` | resharper/resharper60/xunitcontrib.runner.resharper.provider.6.0/UnitTestElements/XunitTestMethodElement.cs:217-219 | an unknown id gives null and only it does; an id of a project gives that project; an id of another kind of element is an InvalidCastException |
| `HostModel.GetDeclaredType` | resharper/resharper60/xunitcontrib.runner.resharper.provider.6.0/UnitTestElements/XunitTestMethodElement.cs:83-94 | a type is found exactly when there is a live project with a primary PSI module whose declarations cache has the type name, and then it is the cached type |
| `HostModel.EnumerateMembers` | resharper/resharper60/xunitcontrib.runner.resharper.provider.6.0/UnitTestElements/XunitTestMethodElement.cs:77 | the enumerated members are exactly the type's members whose name matches, case-sensitively or not as the type says |
| `HostModel.IsTestMethodCandidate` | resharper/resharper60/xunitcontrib.runner.resharper.provider.6.0/UnitTestElements/XunitTestMethodElement.cs:78-79 | a candidate is a method that is not abstract, has no type parameters, and is public or internal |
| `HostModel.FirstCandidate` | resharper/resharper60/xunitcontrib.runner.resharper.provider.6.0/UnitTestElements/XunitTestMethodElement.cs:77-80 | null exactly when no member passes the filter; otherwise the member at the first index that passes it |
| `HostModel.FirstCandidateOfNamed` | resharper/resharper60/xunitcontrib.runner.resharper.provider.6.0/UnitTestElements/XunitTestMethodElement.cs:77-80 | the first candidate among the members of a name is the member at the lowest index of the type's member list that has the name and passes the filter; there is none exactly when no member does both |
| `HostModel.DeclaredMethodIsEarliest` | resharper/resharper60/xunitcontrib.runner.resharper.provider.6.0/UnitTestElements/XunitTestMethodElement.cs:71-81 | for a found type, the declared element is the earliest member of the type with the method's name that passes the filter, and null exactly when no member does |
| `HostModel.FilterRejects` | resharper/resharper60/xunitcontrib.runner.resharper.provider.6.0/UnitTestElements/XunitTestMethodElement.cs:79 | a non-method, abstract, generic, or neither public nor internal member is never picked |
| `HostModel.DeclaredMethodOf` | resharper/resharper60/xunitcontrib.runner.resharper.provider.6.0/UnitTestElements/XunitTestMethodElement.cs:71-81 | null without a declared type; a picked member is a member of the type, matches the name and passes the filter, and is the first such |
| `HostModel.Locations` | resharper/resharper60/xunitcontrib.runner.resharper.provider.6.0/UnitTestElements/XunitTestMethodElement.cs:62-67 | never more locations than declarations; one per declaration when every declaration lies in a file; none when no declaration does |
| `HostModel.LocationsOfAppend` | resharper/resharper60/xunitcontrib.runner.resharper.provider.6.0/UnitTestElements/XunitTestMethodElement.cs:62-67 | the locations keep declaration order: those of concatenated lists concatenate |
| `HostModel.LocationsExact` | resharper/resharper60/xunitcontrib.runner.resharper.provider.6.0/UnitTestElements/XunitTestMethodElement.cs:62-67 | a location is listed if and only if it comes from a declaration that has a containing file, with that file and its name and full ranges |
| `HostModel.DispositionOf` | resharper/resharper60/xunitcontrib.runner.resharper.provider.6.0/UnitTestElements/XunitTestMethodElement.cs:56-69 | invalid exactly when the declared element is missing or no longer valid; otherwise the locations of its declarations |
| `HostModel.ProjectFilesOf` | resharper/resharper60/xunitcontrib.runner.resharper.provider.6.0/UnitTestElements/XunitTestMethodElement.cs:96-113 | the type's source file when it has exactly one; otherwise the declared method's files; none without a declared method |
| `MethodElements.XunitTestMethodElement.constructor` | resharper/resharper60/xunitcontrib.runner.resharper.provider.6.0/UnitTestElements/XunitTestMethodElement.cs:25-38 | the id, names, project and skip reason are stored, the state is Valid, the parent is the class, and the class gains the element as a child |
| `MethodElements.XunitTestMethodElement.GetProject` | resharper/resharper60/xunitcontrib.runner.resharper.provider.6.0/UnitTestElements/XunitTestMethodElement.cs:40-43 | null exactly when the envoy no longer resolves; otherwise the element's own project |
| `MethodElements.XunitTestMethodElement.SetParent` | resharper/resharper60/xunitcontrib.runner.resharper.provider.6.0/UnitTestElements/XunitTestMethodElement.cs:151-165 | setting the current parent changes nothing. Otherwise the old parent loses the element as a child. A class becomes the parent and gains the child, and null clears the parent. Any other element is an InvalidCastException that leaves the element detached yet still pointing at its old parent. Parent/child consistency is kept on every successful call |
| `MethodElements.XunitTestMethodElement.Explicit` | resharper/resharper60/xunitcontrib.runner.resharper.provider.6.0/UnitTestElements/XunitTestMethodElement.cs:177-180 | explicit exactly when the skip reason is neither null nor empty |
| `MethodElements.XunitTestMethodElement.GetTaskSequence` | resharper/resharper60/xunitcontrib.runner.resharper.provider.6.0/UnitTestElements/XunitTestMethodElement.cs:116-135 | without a parent a NullReferenceException, and only then. Otherwise: the assembly task for the parent's assembly; the class task for it and the element's type name, explicit when the parent is listed; the method task, explicit when an element equal to this one is listed |
| `MethodElements.XunitTestMethodElement.GetDeclaredElement` | resharper/resharper60/xunitcontrib.runner.resharper.provider.6.0/UnitTestElements/XunitTestMethodElement.cs:71-81 | null without a declared type; otherwise the first filter-passing member of the method's name, which belongs to the declared type |
| `MethodElements.XunitTestMethodElement.GetDisposition` | resharper/resharper60/xunitcontrib.runner.resharper.provider.6.0/UnitTestElements/XunitTestMethodElement.cs:56-69 | invalid exactly when the declared method is missing or invalid; otherwise the locations of its declarations |
| `MethodElements.XunitTestMethodElement.GetProjectFiles` | resharper/resharper60/xunitcontrib.runner.resharper.provider.6.0/UnitTestElements/XunitTestMethodElement.cs:96-113 | the type's source file when the type is found and has exactly one; otherwise the declared method's files; otherwise none |
| `MethodElements.XunitTestMethodElement.WriteToXml` | resharper/resharper60/xunitcontrib.runner.resharper.provider.6.0/UnitTestElements/XunitTestMethodElement.cs:198-204 | when the project is gone, a NullReferenceException with nothing written; otherwise the persistent id of the element's own project, typeName, methodName and skipReason are set over the old attributes |
| `MethodElements.ReadFromXml` | resharper/resharper60/xunitcontrib.runner.resharper.provider.6.0/UnitTestElements/XunitTestMethodElement.cs:206-222 | an InvalidOperationException unless the parent is a class element; null for an unknown project id; an InvalidCastException when the id names a project-model element that is not a project; otherwise exactly the get-or-create request for the registered project and the class, with the stored type name, method name and skip reason |
| `MethodElements.WriteThenRead` | resharper/resharper60/xunitcontrib.runner.resharper.provider.6.0/UnitTestElements/XunitTestMethodElement.cs:198-222 | while the registry still maps the element's project id to its project, reading back a written record asks for the same project, class, type name and method name, and a skip reason that keeps the element's explicitness |
| `MethodElements.EqualsByNames` | resharper/resharper60/xunitcontrib.runner.resharper.provider.6.0/UnitTestElements/XunitTestMethodElement.cs:184-196 | two method elements are equal if and only if their type names and method names agree; equality is an equivalence, and null or a non-method element is never equal |
| `MethodElements.XunitTestMethodElement.Equals` | resharper/resharper60/xunitcontrib.runner.resharper.provider.6.0/UnitTestElements/XunitTestMethodElement.cs:184-196 | only a method element can be equal, and an element equals itself |
| `MethodElements.ExplicitByName` | resharper/resharper60/xunitcontrib.runner.resharper.provider.6.0/UnitTestElements/XunitTestMethodElement.cs:122 | the method task is explicit when the explicit list holds any method element with the same names, not only the element itself |
| `MethodElements.SiblingsShareLoadTasks` | resharper/resharper60/xunitcontrib.runner.resharper.provider.6.0/UnitTestElements/XunitTestMethodElement.cs:116-124 | two elements under one class with one type name get the same assembly task and equal class tasks |
| `ViewMethodElements.XunitViewTestMethodElement.constructor` | resharper/resharper60/xunitcontrib.runner.resharper.provider.ide.6.0/UnitTestElements/XunitViewTestMethodElement.cs:19-24 | the class, project, id, names and skip flag are stored |
| `ViewMethodElements.XunitViewTestMethodElement.GetProject` | resharper/resharper60/xunitcontrib.runner.resharper.provider.ide.6.0/UnitTestElements/XunitViewTestMethodElement.cs:63-66 | null exactly when the project pointer no longer resolves; otherwise the element's own project |
| `ViewMethodElements.XunitViewTestMethodElement.WriteToXml` | resharper/resharper60/xunitcontrib.runner.resharper.provider.ide.6.0/UnitTestElements/XunitViewTestMethodElement.cs:26-32 | when the project is gone, only the id is written before a NullReferenceException; otherwise id, the persistent id of the element's own project, typeName and methodName are set over the old attributes |
| `ViewMethodElements.ViewMethodRecordExact` | resharper/resharper60/xunitcontrib.runner.resharper.provider.ide.6.0/UnitTestElements/XunitViewTestMethodElement.cs:26-32 | the record adds exactly the four attributes with the element's values and leaves every other attribute, a skip reason included, as it was |
| `ViewMethodElements.ReadFromXml` | resharper/resharper60/xunitcontrib.runner.resharper.provider.ide.6.0/UnitTestElements/XunitViewTestMethodElement.cs:34-50 | an InvalidOperationException unless the parent is a view class element; null for an unknown project id; an InvalidCastException when the id names a project-model element that is not a project; otherwise exactly the get-or-create request for the registered project and the class, with the stored id, type name and method name, never skipped |
| `ViewMethodElements.WriteThenRead` | resharper/resharper60/xunitcontrib.runner.resharper.provider.ide.6.0/UnitTestElements/XunitViewTestMethodElement.cs:26-50 | reading back a written record asks for the same id, project, class, type name and method name, but not skipped: the skip flag does not survive |
| `ViewMethodElements.EqualsProperties` | resharper/resharper60/xunitcontrib.runner.resharper.provider.ide.6.0/UnitTestElements/XunitViewTestMethodElement.cs:52-61 | equal if and only if the other is a view method element accepted by the base Equals with the same type and method names; null, classes and other elements are never equal; an equivalence whenever the base Equals is one |
| `ViewMethodElements.XunitViewTestMethodElement.Equals` | resharper/resharper60/xunitcontrib.runner.resharper.provider.ide.6.0/UnitTestElements/XunitViewTestMethodElement.cs:52-61 | only a view method element that the base Equals accepts can be equal; an element equals itself exactly when the base Equals accepts it |
| `ViewMethodElements.XunitViewTestMethodElement.GetDeclaredElement` | resharper/resharper60/xunitcontrib.runner.resharper.provider.ide.6.0/UnitTestElements/XunitViewTestMethodElement.cs:99-117 | the loop returns exactly the member the 6.0 query picks: the first filter-passing member of the method's name, or null |
| `ViewMethodElements.XunitViewTestMethodElement.GetDisposition` | resharper/resharper60/xunitcontrib.runner.resharper.provider.ide.6.0/UnitTestElements/XunitViewTestMethodElement.cs:84-97 | invalid exactly when the declared method is missing or invalid; otherwise the locations of its declarations that lie in a file |
| `ViewMethodElements.XunitViewTestMethodElement.ExplicitReason` | resharper/resharper60/xunitcontrib.runner.resharper.provider.ide.6.0/UnitTestElements/XunitViewTestMethodElement.cs:143-146 | the explicit reason is always empty |

## Left out

- Exploration (`ExploreAssembly`, `ExploreFile`, `ExploreSolution`, `ExploreExternal`): these hand work to the assembly and file explorers, which are not part of this model.
- The provider's static constructor, `ID`, `Name`, `Icon`, `Present`, `Serialize`, `Deserialize`, `GetCustomOptionsControl` and `GetTaskRunnerInfo`: they register assemblies, return constants or nulls, or draw UI, with no logic to prove.
- The host's merge of task lists into a tree: it is ReSharper's code. The model proves only the task equalities that the merge relies on.
- The XML document itself and `RemoteTask.SaveXml`/`RemoteTask(XmlElement)` of the base class: an element is its attribute map; the base class's own attributes are not modelled. The runner id is passed in as what the base restores.
- The values of `XunitTaskRunner.RunnerId` and of `AttributeNames` are defined elsewhere. The model uses stand-in literals. The proofs only need the three attribute names to be distinct.
- `SetXmlAttribute`/`GetXmlAttribute` are taken to behave as `XmlElement.SetAttribute`/`GetAttribute`: a missing attribute reads as the empty string.
- `EqualsIgnoreCase`, used for case-insensitive member names, folds ASCII letters only. Full Unicode case folding is not modelled.
- `Provider.CompareUnitTestElements`: `StringComparer.CurrentCultureIgnoreCase` is culture data and is a parameter. Antisymmetry is proved assuming it is antisymmetric.
- `RemoteTasks.XunitTestClassTask.HashCode`: `string.GetHashCode` is a parameter. The task's fields are never null after construction, so the null branches of the hash are not modelled.
- Null strings inside elements and tasks (a null type name or method name) are not modelled; only the skip reason, the constructor arguments and the parent may be null here.
- `Common.IsWhiteSpaceOrNull` lists the characters `Char.IsWhiteSpace` accepts in current .NET. U+180E, which older .NET versions also trim, is not included.
- Project pointers and envoys (`GetValidProjectElement`) resolve through ReSharper's project model. Whether the element's project is still loaded is a boolean parameter of `GetDeclaredElement`, `GetDisposition`, `GetProjectFiles` and `WriteToXml`. While it is loaded, `GetProject` gives the project the element was created with.
- `HostModel.EnumerateMembers`: its own contract states only which members are enumerated. The order it keeps is stated by `HostModel.FirstCandidateOfNamed` and `HostModel.DeclaredMethodIsEarliest`, which relate the picked member to the type's member list.
- The factory's and provider's `GetOrCreateTestMethod` are not part of this model: `ReadFromXml` returns the request it would make.
- The class elements (`XunitTestClassElement`, `XunitViewTestClassElement`) are not part of this model beyond their names, assembly location and set of children.
- A class element's `Equals` is taken as reference identity, and an element of another provider is taken to equal no xUnit.net element.
- The base element of `XunitViewTestMethodElement` is not part of this model. Its `Equals` is a parameter, and its constructor's effect on the skip flag is kept as a field.
- `GetPresentation`, `GetTitle`, `GetNamespace`, `Kind`, `Categories`, `Children`, `GetProjectPointer`, `Provider`, and the 6.0 overload of `GetTaskSequence` that takes an enumerable and converts it to a list: these are constants or accessors.
- `MethodElements.UnitTestElementState` holds only `Valid` and `Invalid`: the element sets only `Valid`, and the other states of ReSharper's enumeration are not used here.
