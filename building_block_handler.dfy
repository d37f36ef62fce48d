/**
 * BuildingBlockHandler: for each field or method annotated with @BuildingBlock whose class
 * is annotated with @Buildable, a fluent method of that class's builder which sets the
 * field, or calls the method, on the instance under construction and returns the builder.
 */
module BuildingBlockHandlers {

  import opened Wrappers
  import opened Strings
  import opened Host
  import opened BeelderConstants
  import opened BeelderUtils
  import opened ElementUtils
  import opened Types
  import opened Variables
  import opened Methods
  import opened Statements
  import opened Clazzes
  import opened Registry
  import opened BuildableHandlers

  /** The endings of the handler's diagnostics. */
  const EnclosingNotBuildable := "but enclosing class is not annotated with @" + BuildableSimpleName
                                 + "! Builder will not be generated"
  const FinalOrStatic := "but is final or static"
  const NoSetterMethod := "but it's enclosing class does not contain a valid setter method"
  const NotAccessible := "but is not accessible from outside the class"
  const ReturnIgnored := "and it's return statement will be ignored in the generated builder"

  /** The last line of every generated mutator, written by addReturnStatement("this"). */
  const ReturnThisLine := "return " + "this" + ";"

  /** The exceptions the reflective setter catches, in one clause. */
  const FieldAccessExceptions := "NoSuchFieldException | IllegalAccessException"

  /** One diagnostic about `e` under @BuildingBlock. */
  function BlockMessage(kind: DiagnosticKind, e: Element, suffix: string): Diagnostic {
    Diagnostic(kind, MessageText(e.kind, e.display, BuildingBlockSimpleName, suffix))
  }


  // ---------------------------------------------------------------------------------------
  // The setter lookup

  /** The first of `es` with simple name `name`, of whatever kind. */
  function FirstNamed(es: seq<Element>, name: string): (r: Option<Element>)
    ensures r.None? <==> forall e | e in es :: e.simpleName != name
    ensures r.Some? ==> r.value in es && r.value.simpleName == name
  {
    if es == [] then None
    else if es[0].simpleName == name then Some(es[0])
    else FirstNamed(es[1..], name)
  }

  /** lookForSetterMethod: the first element enclosed by `cls` named `methodName`, or None (null). */
  function LookForSetterMethod(cls: Element, methodName: string): (r: Option<Element>)
    ensures r.None? <==> forall e | e in cls.enclosed :: e.simpleName != methodName
    ensures r.Some? ==> r.value in cls.enclosed && r.value.simpleName == methodName
  {
    FirstNamed(cls.enclosed, methodName)
  }

  /** The element found is the first one with that name: every element before it has another name. */
  lemma {:induction false} FirstNamedAt(es: seq<Element>, name: string, i: nat)
    requires i < |es| && es[i].simpleName == name
    requires forall j :: 0 <= j < i ==> es[j].simpleName != name
    ensures FirstNamed(es, name) == Some(es[i])
  {
    if i > 0 {
      FirstNamedAt(es[1..], name, i - 1);
    }
  }

  /** getSetterMethod: "set" followed by the capitalized simple name. */
  function GetSetterMethod(e: Element): (r: string)
    ensures StartsWith(r, "set") && |r| == 3 + |e.simpleName|
    ensures e.simpleName != [] ==> r[3] == UpperChar(e.simpleName[0]) && r[4..] == e.simpleName[1..]
  {
    SetterMethodName(e)
  }

  // ---------------------------------------------------------------------------------------
  // The generated methods, on values

  /** The parameter of a field setter: a Variable "param" of the field's type. */
  function SetterParameter(field: Element): VariableDecl {
    VariableDecl(GetElementType(field), SetterMethodParamName, None, [])
  }

  /**
   * The steps shared by addPublicVarAssign and addReflectionSettingMethod on the fetched
   * setter `md`: return type `builder`, one more parameter "param", then the line that
   * writes the field and the return of the builder.
   */
  function SetterD(md: MethodDecl, field: Element, builder: string, line: string): MethodDecl {
    md.(returnType := builder,
        parameters := md.parameters + [SetterParameter(field)],
        content := md.content + [line, ReturnThisLine])
  }

  /** The setter of `field` on builder class `d`, fetched and completed with `line`. */
  function WithSetterD(d: ClazzDecl, field: Element, builder: string, line: string): ClazzDecl {
    var k := GetSetterMethod(field);
    var d1 := FetchMethodD(d, k);
    WithMethodD(d1, k, SetterD(d1.methods[k], field, builder, line))
  }

  /** The line of a direct assignment: "object.f = param;". */
  function AssignLine(field: Element): string {
    CreateAssignment(BuildableObjectName, GetElementNameSimple(field), SetterMethodParamName)
  }

  /** addPublicVarAssign on the builder class `d`. */
  function PublicVarAssignD(d: ClazzDecl, field: Element): ClazzDecl {
    WithSetterD(d, field, d.key, AssignLine(field))
  }

  /** The try block of addReflectionSettingMethod, for an instance of type `objType`. */
  function ReflectiveFieldTryD(objType: string, fieldName: string): TryDecl {
    TryDecl(["java.lang.reflect.Field field = " + objType + ".class.getDeclaredField(\"" + fieldName + "\");",
             "field.setAccessible(true);",
             "field.set(" + BuildableObjectName + ", " + SetterMethodParamName + ");",
             "field.setAccessible(false);"],
            map[FieldAccessExceptions := [""]], [FieldAccessExceptions])
  }

  /** The text of that try block, rendered at depth 2. */
  function ReflectiveFieldLine(objType: string, field: Element): string {
    RenderTry(ReflectiveFieldTryD(objType, GetElementNameSimple(field)), 2)
  }

  /** The method invoker on the fetched method `md`: lines 177-185. */
  function InvokerD(md: MethodDecl, methodEl: Element, builder: string): MethodDecl {
    var ps := md.parameters + RenamedParameters(methodEl.parameters, |md.parameters|);
    md.(returnType := builder,
        parameters := ps,
        content := md.content + [CreateMethodCall(BuildableObjectName, methodEl.simpleName, Keys(ps)), ReturnThisLine])
  }

  /** The invoker of `methodEl` on builder class `d`, fetched under the method's name. */
  function WithInvokerD(d: ClazzDecl, methodEl: Element, builder: string): ClazzDecl {
    var k := GetElementNameSimple(methodEl);
    var d1 := FetchMethodD(d, k);
    WithMethodD(d1, k, InvokerD(d1.methods[k], methodEl, builder))
  }

  // ---------------------------------------------------------------------------------------
  // The handler on values

  /** handleMethod gets past its checks: not private or protected, and executable. */
  predicate Invokable(m: Element) {
    !ContainsAny(m.modifiers, [PRIVATE, PROTECTED]) && IsExecutable(m)
  }

  /** handleMethod's diagnostics. */
  function HandleMethodMessages(m: Element): seq<Diagnostic> {
    if ContainsAny(m.modifiers, [PRIVATE, PROTECTED]) then [BlockMessage(ERROR, m, NotAccessible)]
    else if !IsExecutable(m) then []
    else if !m.returnsVoid then [BlockMessage(WARNING, m, ReturnIgnored)]
    else []
  }

  /** handleMethod on the registry, for method `m` enclosed by `owner`. */
  function HandleMethodD(r: RegistryDecl, m: Element, owner: Element): RegistryDecl {
    if !Invokable(m) then r
    else
      var name := GetBuilderNameFor(m, Some(owner));
      var r1 := WithRoot(r, name);
      r1[name := WithInvokerD(r1[name], m, name)]
  }

  /** addReflectionSettingMethod on the registry: without an "object" variable it stops after the fetch. */
  function ReflectionSettingD(r: RegistryDecl, field: Element, builderName: string): RegistryDecl {
    var r1 := WithRoot(r, builderName);
    match VariableFor(r1[builderName].variables, BuildableObjectName)
    case None => r1
    case Some(v) => r1[builderName := WithSetterD(r1[builderName], field, builderName, ReflectiveFieldLine(v.typ, field))]
  }

  /** writeWithReflection of the enclosing class's @Buildable. */
  function WritesWithReflection(owner: Element): bool
    requires owner.buildable.Some?
  {
    owner.buildable.value.writeWithReflection
  }

  /** handleField on the registry, for field `f` enclosed by `owner`. */
  function HandleFieldD(r: RegistryDecl, f: Element, owner: Element): RegistryDecl
    requires owner.buildable.Some?
  {
    var name := GetBuilderNameFor(f, Some(owner));
    if ContainsAny(f.modifiers, [FINAL, STATIC]) then r
    else if IsAccessible(f) then
      var r1 := WithRoot(r, name);
      r1[name := PublicVarAssignD(r1[name], f)]
    else if WritesWithReflection(owner) then ReflectionSettingD(r, f, name)
    else
      match LookForSetterMethod(owner, GetSetterMethod(f))
      case None => r
      case Some(s) => HandleMethodD(r, s, owner)
  }

  /** handleField's diagnostics. */
  function HandleFieldMessages(f: Element, owner: Element): seq<Diagnostic>
    requires owner.buildable.Some?
  {
    if ContainsAny(f.modifiers, [FINAL, STATIC]) then [BlockMessage(ERROR, f, FinalOrStatic)]
    else if IsAccessible(f) || WritesWithReflection(owner) then []
    else
      match LookForSetterMethod(owner, GetSetterMethod(f))
      case None => [BlockMessage(ERROR, f, NoSetterMethod)]
      case Some(s) => HandleMethodMessages(s)
  }

  /**
   * handleField throws a NullPointerException: the reflective setter is asked for while the
   * builder has no variable "object" to read its type from.
   */
  predicate FieldFails(r: RegistryDecl, f: Element, owner: Element)
    requires owner.buildable.Some?
  {
    !ContainsAny(f.modifiers, [FINAL, STATIC]) && !IsAccessible(f) && WritesWithReflection(owner)
    && !HasVariable(RootD(r, GetBuilderNameFor(f, Some(owner))).variables, BuildableObjectName)
  }

  /** handleAnnotatedElement on the registry. */
  function ElementD(r: RegistryDecl, x: Member): (r': RegistryDecl)
    ensures r.Keys <= r'.Keys <= r.Keys + {Target(x)}
    ensures forall n | n in r && n != Target(x) :: r'[n] == r[n]
  {
    if x.enclosing.buildable.None? then r
    else if x.element.kind == FIELD then HandleFieldD(r, x.element, x.enclosing)
    else if x.element.kind == METHOD then HandleMethodD(r, x.element, x.enclosing)
    else r
  }

  /** handleAnnotatedElement's diagnostics. */
  function ElementMessages(x: Member): (r: seq<Diagnostic>)
    ensures |r| <= 1
  {
    if x.enclosing.buildable.None? then [BlockMessage(WARNING, x.element, EnclosingNotBuildable)]
    else if x.element.kind == FIELD then HandleFieldMessages(x.element, x.enclosing)
    else if x.element.kind == METHOD then HandleMethodMessages(x.element)
    else []
  }

  /** handleAnnotatedElement throws. */
  predicate ElementFails(r: RegistryDecl, x: Member) {
    x.enclosing.buildable.Some? && x.element.kind == FIELD && FieldFails(r, x.element, x.enclosing)
  }


  /** handleAnnotation on values: the members in turn, until one throws. */
  function RunD(r: RegistryDecl, xs: seq<Member>): Run {
    if xs == [] then Run(r, [], false)
    else
      var p := RunD(r, xs[..|xs| - 1]);
      var x := xs[|xs| - 1];
      if p.failed then p
      else Run(ElementD(p.reg, x), p.messages + ElementMessages(x), ElementFails(p.reg, x))
  }

  /** A run reports at most one diagnostic per member. */
  lemma {:induction false} RunMessagesBounded(r: RegistryDecl, xs: seq<Member>)
    ensures |RunD(r, xs).messages| <= |xs|
  {
    if xs != [] {
      RunMessagesBounded(r, xs[..|xs| - 1]);
    }
  }

  /** One more member, when none before it threw. */
  lemma RunStep(r: RegistryDecl, m0: seq<Diagnostic>, m1: seq<Diagnostic>, m2: seq<Diagnostic>, xs: seq<Member>, i: nat)
    requires i < |xs| && !RunD(r, xs[..i]).failed
    requires m1 == m0 + RunD(r, xs[..i]).messages && m2 == m1 + ElementMessages(xs[i])
    ensures RunD(r, xs[..i + 1]).reg == ElementD(RunD(r, xs[..i]).reg, xs[i])
    ensures RunD(r, xs[..i + 1]).failed == ElementFails(RunD(r, xs[..i]).reg, xs[i])
    ensures m2 == m0 + RunD(r, xs[..i + 1]).messages
  {
    assert xs[..i + 1][..i] == xs[..i];
    AppendAssoc(m0, RunD(r, xs[..i]).messages, ElementMessages(xs[i]));
  }

  /** Once a member has thrown, the members after it are not handled. */
  lemma {:induction false} RunStopsAtFailure(r: RegistryDecl, xs: seq<Member>, ys: seq<Member>)
    requires RunD(r, xs).failed
    ensures RunD(r, xs + ys) == RunD(r, xs)
  {
    if ys != [] {
      var init := ys[..|ys| - 1];
      assert (xs + ys)[..|xs + ys| - 1] == xs + init;
      RunStopsAtFailure(r, xs, init);
    } else {
      assert xs + ys == xs;
    }
  }

  /** A run whose member `i` throws ends there. */
  lemma RunFailedPrefix(r: RegistryDecl, xs: seq<Member>, i: nat)
    requires i < |xs| && RunD(r, xs[..i + 1]).failed
    ensures RunD(r, xs) == RunD(r, xs[..i + 1])
  {
    var pre, post := xs[..i + 1], xs[i + 1..];
    assert pre + post == xs;
    RunStopsAtFailure(r, pre, post);
  }

  // ---------------------------------------------------------------------------------------
  // What the handler promises

  /** Storing a method under its own key in place of the one there keeps a class well formed. */
  lemma WithMethodWellFormed(d: ClazzDecl, k: string, md: MethodDecl)
    requires WellFormed(d) && k in d.methods && md.key == k
    ensures WellFormed(WithMethodD(d, k, md))
  {
    assert WithMethodD(d, k, md).methods.Keys == d.methods.Keys;
  }

  /**
   * The setter of `field` is the method "set" + the capitalized field name: it returns
   * `builder`, gains one parameter "param" of the field's type and ends with `line` and
   * "return this;". Nothing else in the class changes, and a class that had no such method
   * gets exactly this one.
   */
  lemma SetterEffect(d: ClazzDecl, field: Element, builder: string, line: string)
    requires WellFormed(d)
    ensures var r := WithSetterD(d, field, builder, line);
            var k := GetSetterMethod(field);
            WellFormed(r) && k in r.methods
            && r.variables == d.variables && r.constructors == d.constructors && r.key == d.key
            && (forall k' :: k' in d.methods && k' != k ==> r.methods[k'] == d.methods[k'])
    ensures var r := WithSetterD(d, field, builder, line);
            var k := GetSetterMethod(field);
            var m0 := if k in d.methods then d.methods[k] else NewMethodDecl(k);
            r.methods[k] == m0.(returnType := builder,
                                parameters := m0.parameters + [SetterParameter(field)],
                                content := m0.content + [line, ReturnThisLine])
    ensures var k := GetSetterMethod(field);
            k !in d.methods ==>
              WithSetterD(d, field, builder, line).methods[k]
              == MethodDecl(k, [], [SetterParameter(field)], [line, ReturnThisLine], builder)
  {
    var k := GetSetterMethod(field);
    FetchMethodKeepsOthers(d, k);
    var d1 := FetchMethodD(d, k);
    WithMethodWellFormed(d1, k, SetterD(d1.methods[k], field, builder, line));
  }

  /** The direct assignment reads "object.<field> = param;". */
  lemma AssignLineText(field: Element)
    ensures AssignLine(field) == "object." + field.simpleName + " = param;"
  {
  }

  /**
   * An accessible field gets the setter "set<Field>(<type> param)" returning the builder,
   * whose new lines are "object.<field> = param;" and "return this;".
   */
  lemma PublicSetterShape(d: ClazzDecl, field: Element)
    requires WellFormed(d)
    ensures var k := GetSetterMethod(field);
            var r := PublicVarAssignD(d, field);
            k !in d.methods ==>
              r.methods[k] == MethodDecl(k, [], [VariableDecl(GetElementType(field), "param", None, [])],
                                         ["object." + field.simpleName + " = param;", "return this;"], d.key)
  {
    SetterEffect(d, field, d.key, AssignLine(field));
    AssignLineText(field);
    assert ReturnThisLine == "return this;";
  }

  /** A second contribution to the same setter appends a second "param" and two more lines. */
  lemma SetterTwice(d: ClazzDecl, field: Element, builder: string, line: string)
    requires WellFormed(d)
    ensures var k := GetSetterMethod(field);
            var r1 := WithSetterD(d, field, builder, line);
            var r2 := WithSetterD(r1, field, builder, line);
            r2.methods[k].parameters == r1.methods[k].parameters + [SetterParameter(field)]
            && r2.methods[k].content == r1.methods[k].content + [line, ReturnThisLine]
  {
    SetterEffect(d, field, builder, line);
    SetterEffect(WithSetterD(d, field, builder, line), field, builder, line);
  }

  /** The keys of the parameters renamed from 0 are param0, param1, ... */
  lemma RenamedKeys(ps: seq<Element>)
    ensures Keys(RenamedParameters(ps, 0)) == ParamNames(|ps|)
  {
    var a, b := Keys(RenamedParameters(ps, 0)), ParamNames(|ps|);
    assert forall i | 0 <= i < |a| :: a[i] == b[i];
  }

  /**
   * The invoker of a method is keyed by the method's name and returns `builder`; the
   * method's parameters are appended, renamed after the count already there, and the body
   * gains the call "object.<name>(<every parameter key>);" and "return this;". On a class
   * without that method, the parameters are param0 .. param(n-1), all distinct.
   */
  lemma InvokerEffect(d: ClazzDecl, methodEl: Element, builder: string)
    requires WellFormed(d)
    ensures var r := WithInvokerD(d, methodEl, builder);
            var k := methodEl.simpleName;
            WellFormed(r) && k in r.methods
            && r.variables == d.variables && r.constructors == d.constructors && r.key == d.key
            && (forall k' :: k' in d.methods && k' != k ==> r.methods[k'] == d.methods[k'])
    ensures var k := methodEl.simpleName;
            var m0 := if k in d.methods then d.methods[k] else NewMethodDecl(k);
            var ps := m0.parameters + RenamedParameters(methodEl.parameters, |m0.parameters|);
            WithInvokerD(d, methodEl, builder).methods[k]
            == m0.(returnType := builder, parameters := ps,
                   content := m0.content + [CreateMethodCall(BuildableObjectName, k, Keys(ps)), ReturnThisLine])
    ensures var k := methodEl.simpleName;
            var n := |methodEl.parameters|;
            var m := WithInvokerD(d, methodEl, builder).methods[k];
            k !in d.methods ==>
              Keys(m.parameters) == ParamNames(n) && NoDuplicates(Keys(m.parameters))
              && m.content == [CreateMethodCall("object", k, ParamNames(n)), "return this;"]
  {
    var k := methodEl.simpleName;
    FetchMethodKeepsOthers(d, k);
    var d1 := FetchMethodD(d, k);
    WithMethodWellFormed(d1, k, InvokerD(d1.methods[k], methodEl, builder));
    if k !in d.methods {
      var ps := RenamedParameters(methodEl.parameters, 0);
      assert [] + ps == ps;
      RenamedKeys(methodEl.parameters);
      RenamedParametersDistinct(methodEl.parameters, 0);
      assert ReturnThisLine == "return this;";
      assert [] + [CreateMethodCall(BuildableObjectName, k, Keys(ps)), ReturnThisLine]
          == [CreateMethodCall("object", k, ParamNames(|methodEl.parameters|)), "return this;"];
    }
  }

  /**
   * A second contribution to the same invoker is not ignored: the parameters are appended
   * again, numbered on from the count already there, and the body gets a second call
   * naming every parameter key, the earlier ones included.
   */
  lemma InvokerTwice(d: ClazzDecl, methodEl: Element, builder: string)
    requires WellFormed(d)
    ensures var k := methodEl.simpleName;
            var r1 := WithInvokerD(d, methodEl, builder);
            var r2 := WithInvokerD(r1, methodEl, builder);
            var p1 := r1.methods[k].parameters;
            var p2 := p1 + RenamedParameters(methodEl.parameters, |p1|);
            r2.methods[k].parameters == p2
            && r2.methods[k].content == r1.methods[k].content + [CreateMethodCall(BuildableObjectName, k, Keys(p2)), ReturnThisLine]
  {
    InvokerEffect(d, methodEl, builder);
    InvokerEffect(WithInvokerD(d, methodEl, builder), methodEl, builder);
  }

  /** A member of a class without @Buildable gets a WARNING and changes nothing. */
  lemma EnclosingNotBuildableWarns(r: RegistryDecl, x: Member)
    requires x.enclosing.buildable.None?
    ensures ElementD(r, x) == r && !ElementFails(r, x)
    ensures ElementMessages(x) == [BlockMessage(WARNING, x.element, EnclosingNotBuildable)]
  {
  }

  /** A final or static field gets an ERROR and no setter, whatever its other modifiers. */
  lemma FinalOrStaticRejected(r: RegistryDecl, f: Element, owner: Element)
    requires owner.buildable.Some? && (FINAL in f.modifiers || STATIC in f.modifiers)
    ensures HandleFieldD(r, f, owner) == r && !FieldFails(r, f, owner)
    ensures HandleFieldMessages(f, owner) == [BlockMessage(ERROR, f, FinalOrStatic)]
  {
    ContainsOfTwo(f.modifiers, FINAL, STATIC);
  }

  /**
   * With reflection enabled, an inaccessible field gets the reflective setter whatever the
   * class encloses: no setter is looked up, and nothing is reported.
   */
  lemma ReflectionBeforeSetterLookup(r: RegistryDecl, f: Element, owner: Element, es: seq<Element>)
    requires owner.buildable.Some? && WritesWithReflection(owner)
    requires FINAL !in f.modifiers && STATIC !in f.modifiers
    requires PRIVATE in f.modifiers || PROTECTED in f.modifiers
    ensures HandleFieldD(r, f, owner) == ReflectionSettingD(r, f, GetBuilderNameFor(f, Some(owner)))
    ensures HandleFieldD(r, f, owner) == HandleFieldD(r, f, owner.(enclosed := es))
    ensures HandleFieldMessages(f, owner) == []
  {
    ContainsOfTwo(f.modifiers, FINAL, STATIC);
    ContainsOfTwo(f.modifiers, PRIVATE, PROTECTED);
  }

  /**
   * The reflective setter: with an "object" variable of type T the setter ends with the try
   * block on T's declared field; without one the handler throws, leaving only the builder
   * fetched (and created, when it was missing).
   */
  lemma ReflectiveSetterEffect(r: RegistryDecl, f: Element, name: string)
    ensures var d := RootD(r, name);
            HasVariable(d.variables, BuildableObjectName) ==>
              var t := VariableFor(d.variables, BuildableObjectName).value.typ;
              ReflectionSettingD(r, f, name) == r[name := WithSetterD(d, f, name, ReflectiveFieldLine(t, f))]
    ensures !HasVariable(RootD(r, name).variables, BuildableObjectName) ==>
              ReflectionSettingD(r, f, name) == WithRoot(r, name)
  {
    var d := RootD(r, name);
    if HasVariable(d.variables, BuildableObjectName) {
      var t := VariableFor(d.variables, BuildableObjectName).value.typ;
      WithRootThenStore(r, name, WithSetterD(d, f, name, ReflectiveFieldLine(t, f)));
    }
  }

  /** An inaccessible field without reflection and without an element named like its setter gets an ERROR. */
  lemma MissingSetterReported(r: RegistryDecl, f: Element, owner: Element)
    requires owner.buildable.Some? && !WritesWithReflection(owner)
    requires FINAL !in f.modifiers && STATIC !in f.modifiers
    requires PRIVATE in f.modifiers || PROTECTED in f.modifiers
    requires forall e | e in owner.enclosed :: e.simpleName != GetSetterMethod(f)
    ensures HandleFieldD(r, f, owner) == r && !FieldFails(r, f, owner)
    ensures HandleFieldMessages(f, owner) == [BlockMessage(ERROR, f, NoSetterMethod)]
  {
    ContainsOfTwo(f.modifiers, FINAL, STATIC);
    ContainsOfTwo(f.modifiers, PRIVATE, PROTECTED);
  }

  /**
   * Otherwise the first element the class encloses under the setter's name is handled as an
   * annotated method, with its checks and diagnostics.
   */
  lemma SetterHandledAsMethod(r: RegistryDecl, f: Element, owner: Element, i: nat)
    requires owner.buildable.Some? && !WritesWithReflection(owner)
    requires FINAL !in f.modifiers && STATIC !in f.modifiers
    requires PRIVATE in f.modifiers || PROTECTED in f.modifiers
    requires i < |owner.enclosed| && owner.enclosed[i].simpleName == GetSetterMethod(f)
    requires forall j :: 0 <= j < i ==> owner.enclosed[j].simpleName != GetSetterMethod(f)
    ensures HandleFieldD(r, f, owner) == HandleMethodD(r, owner.enclosed[i], owner) && !FieldFails(r, f, owner)
    ensures HandleFieldMessages(f, owner) == HandleMethodMessages(owner.enclosed[i])
  {
    ContainsOfTwo(f.modifiers, FINAL, STATIC);
    ContainsOfTwo(f.modifiers, PRIVATE, PROTECTED);
    FirstNamedAt(owner.enclosed, GetSetterMethod(f), i);
  }

  /** A private or protected method gets an ERROR and nothing is generated. */
  lemma InaccessibleMethodRejected(r: RegistryDecl, m: Element, owner: Element)
    requires PRIVATE in m.modifiers || PROTECTED in m.modifiers
    ensures HandleMethodD(r, m, owner) == r
    ensures HandleMethodMessages(m) == [BlockMessage(ERROR, m, NotAccessible)]
  {
    ContainsOfTwo(m.modifiers, PRIVATE, PROTECTED);
  }

  /**
   * A method returning a value gets a WARNING, and its invoker is generated exactly as for a
   * void method, which gets no diagnostic.
   */
  lemma NonVoidWarnsAndProceeds(r: RegistryDecl, m: Element, owner: Element)
    requires PRIVATE !in m.modifiers && PROTECTED !in m.modifiers && m.kind == METHOD && !m.returnsVoid
    ensures HandleMethodMessages(m) == [BlockMessage(WARNING, m, ReturnIgnored)]
    ensures HandleMethodMessages(m.(returnsVoid := true)) == []
    ensures HandleMethodD(r, m, owner) == HandleMethodD(r, m.(returnsVoid := true), owner)
    ensures var name := owner.simpleName + BuildableClassSuffix;
            var r1 := WithRoot(r, name);
            HandleMethodD(r, m, owner) == r1[name := WithInvokerD(r1[name], m, name)]
  {
    ContainsOfTwo(m.modifiers, PRIVATE, PROTECTED);
  }

  /** The builder a member contributes to, when its class carries @Buildable. */
  function Target(x: Member): string {
    x.enclosing.simpleName + BuildableClassSuffix
  }

  /** Fetching the root keeps a well-formed registry well formed. */
  lemma WithRootWellFormed(r: RegistryDecl, name: string)
    requires RegistryWellFormed(r)
    ensures RegistryWellFormed(WithRoot(r, name))
  {
    if name !in r {
      assert KeysListed(NewClazzDecl(name).methodOrder, NewClazzDecl(name).methods.Keys);
    }
  }

  /** Storing a setter on the fetched root keeps the registry well formed and adds only `name`. */
  lemma StoreSetterWellFormed(r: RegistryDecl, name: string, f: Element, line: string)
    requires RegistryWellFormed(r)
    ensures var r1 := WithRoot(r, name);
            var r2 := r1[name := WithSetterD(r1[name], f, name, line)];
            RegistryWellFormed(r2) && r2.Keys == r.Keys + {name}
  {
    WithRootWellFormed(r, name);
    SetterEffect(WithRoot(r, name)[name], f, name, line);
  }

  /** Storing an invoker on the fetched root keeps the registry well formed and adds only `name`. */
  lemma StoreInvokerWellFormed(r: RegistryDecl, name: string, m: Element)
    requires RegistryWellFormed(r)
    ensures var r1 := WithRoot(r, name);
            var r2 := r1[name := WithInvokerD(r1[name], m, name)];
            RegistryWellFormed(r2) && r2.Keys == r.Keys + {name}
  {
    WithRootWellFormed(r, name);
    InvokerEffect(WithRoot(r, name)[name], m, name);
  }

  /** The invoker of an accepted method keeps the registry well formed and adds only `owner`'s builder. */
  lemma MethodKeepsWellFormed(r: RegistryDecl, m: Element, owner: Element)
    requires RegistryWellFormed(r)
    ensures RegistryWellFormed(HandleMethodD(r, m, owner))
    ensures r.Keys <= HandleMethodD(r, m, owner).Keys <= r.Keys + {owner.simpleName + BuildableClassSuffix}
  {
    if Invokable(m) {
      StoreInvokerWellFormed(r, GetBuilderNameFor(m, Some(owner)), m);
    }
  }

  /** A field's setter keeps the registry well formed and adds only `owner`'s builder. */
  lemma FieldKeepsWellFormed(r: RegistryDecl, f: Element, owner: Element)
    requires RegistryWellFormed(r) && owner.buildable.Some? && f.kind == FIELD
    ensures RegistryWellFormed(HandleFieldD(r, f, owner))
    ensures r.Keys <= HandleFieldD(r, f, owner).Keys <= r.Keys + {owner.simpleName + BuildableClassSuffix}
  {
    var name := GetBuilderNameFor(f, Some(owner));
    assert name == owner.simpleName + BuildableClassSuffix;
    if ContainsAny(f.modifiers, [FINAL, STATIC]) {
    } else if IsAccessible(f) {
      StoreSetterWellFormed(r, name, f, AssignLine(f));
      WithRootThenStore(r, name, PublicVarAssignD(WithRoot(r, name)[name], f));
    } else if WritesWithReflection(owner) {
      WithRootWellFormed(r, name);
      var r1 := WithRoot(r, name);
      match VariableFor(r1[name].variables, BuildableObjectName)
      case None =>
      case Some(v) => StoreSetterWellFormed(r, name, f, ReflectiveFieldLine(v.typ, f));
    } else {
      match LookForSetterMethod(owner, GetSetterMethod(f))
      case None =>
      case Some(s) => MethodKeepsWellFormed(r, s, owner);
    }
  }

  /**
   * One member keeps every class of a well-formed registry well formed, removes no builder
   * and adds at most the builder of its own class; a member of a class without @Buildable
   * adds none.
   */
  lemma ElementKeepsWellFormed(r: RegistryDecl, x: Member)
    requires RegistryWellFormed(r)
    ensures RegistryWellFormed(ElementD(r, x))
    ensures r.Keys <= ElementD(r, x).Keys <= r.Keys + {Target(x)}
    ensures x.enclosing.buildable.None? ==> ElementD(r, x) == r
  {
    if x.enclosing.buildable.Some? {
      if x.element.kind == FIELD {
        FieldKeepsWellFormed(r, x.element, x.enclosing);
      } else if x.element.kind == METHOD {
        MethodKeepsWellFormed(r, x.element, x.enclosing);
      }
    }
  }

  /**
   * handleAnnotation keeps a well-formed registry well formed, removes no builder, and adds
   * only builders of the members' own classes.
   */
  lemma {:induction false} RunKeepsWellFormed(r: RegistryDecl, xs: seq<Member>)
    requires RegistryWellFormed(r)
    ensures RegistryWellFormed(RunD(r, xs).reg)
    ensures r.Keys <= RunD(r, xs).reg.Keys
    ensures forall n | n in RunD(r, xs).reg && n !in r :: exists x | x in xs :: Target(x) == n
  {
    if xs != [] {
      var ys := xs[..|xs| - 1];
      RunKeepsWellFormed(r, ys);
      var p := RunD(r, ys);
      if !p.failed {
        ElementKeepsWellFormed(p.reg, xs[|xs| - 1]);
        forall n | n in RunD(r, xs).reg && n !in r
          ensures exists x | x in xs :: Target(x) == n
        {
          if n in p.reg {
            var x :| x in ys && Target(x) == n;
            assert x in xs;
          } else {
            assert Target(xs[|xs| - 1]) == n;
          }
        }
      }
    }
  }

  // ---------------------------------------------------------------------------------------
  // The handler on objects

  class BuildingBlockHandler {

    constructor ()
    {
    }

    /** handleAnnotation: every annotated member in turn; false when one threw. */
    method HandleAnnotation(reg: ClazzBuilder, members: seq<Member>, messager: Messager) returns (completed: bool)
      requires reg.Valid()
      modifies reg.Repr(), messager
      ensures reg.Valid()
      ensures reg.Decl() == RunD(old(reg.Decl()), members).reg
      ensures messager.messages == old(messager.messages) + RunD(old(reg.Decl()), members).messages
      ensures completed <==> !RunD(old(reg.Decl()), members).failed
    {
      ghost var r0, m0 := reg.Decl(), messager.messages;
      var i := 0;
      while i < |members|
        invariant 0 <= i <= |members| && reg.Valid()
        invariant !RunD(r0, members[..i]).failed
        invariant reg.Decl() == RunD(r0, members[..i]).reg
        invariant messager.messages == m0 + RunD(r0, members[..i]).messages
        invariant forall o | o in reg.Repr() :: o in old(reg.Repr()) || fresh(o)
      {
        ghost var before := messager.messages;
        var ok := HandleAnnotatedElement(reg, members[i], messager);
        RunStep(r0, m0, before, messager.messages, members, i);
        if !ok {
          RunFailedPrefix(r0, members, i);
          return false;
        }
        i := i + 1;
      }
      assert members[..|members|] == members;
      return true;
    }

    /** handleAnnotatedElement: the check of the enclosing class, then the field or the method. */
    method HandleAnnotatedElement(reg: ClazzBuilder, x: Member, messager: Messager) returns (completed: bool)
      requires reg.Valid()
      modifies reg.Repr(), messager
      ensures reg.Valid()
      ensures forall o | o in reg.Repr() :: o in old(reg.Repr()) || fresh(o)
      ensures reg.Decl() == ElementD(old(reg.Decl()), x)
      ensures messager.messages == old(messager.messages) + ElementMessages(x)
      ensures completed <==> !ElementFails(old(reg.Decl()), x)
    {
      var ok := CheckEnclosingClass(x, messager);
      RegistryUnchanged(reg);
      if !ok {
        return true;
      }
      if x.element.kind == FIELD {
        completed := HandleField(reg, x.element, x.enclosing, messager);
      } else if x.element.kind == METHOD {
        HandleMethod(reg, x.element, x.enclosing, messager);
        completed := true;
      } else {
        completed := true;
      }
    }

    /** checkEnclosingClass: a WARNING, and false, when the enclosing class lacks @Buildable. */
    method CheckEnclosingClass(x: Member, messager: Messager) returns (ok: bool)
      modifies messager
      ensures ok <==> x.enclosing.buildable.Some?
      ensures ok ==> messager.messages == old(messager.messages)
      ensures !ok ==> messager.messages == old(messager.messages) + [BlockMessage(WARNING, x.element, EnclosingNotBuildable)]
    {
      if x.enclosing.buildable.Some? {
        return true;
      }
      MessageElementAnnotatedWith(messager, WARNING, BuildingBlockSimpleName, EnclosingNotBuildable, x.element);
      return false;
    }

    /** handleField: rejected, assigned directly, set reflectively, or left to its setter. */
    method HandleField(reg: ClazzBuilder, field: Element, owner: Element, messager: Messager) returns (completed: bool)
      requires reg.Valid() && owner.buildable.Some?
      modifies reg.Repr(), messager
      ensures reg.Valid()
      ensures forall o | o in reg.Repr() :: o in old(reg.Repr()) || fresh(o)
      ensures reg.Decl() == HandleFieldD(old(reg.Decl()), field, owner)
      ensures messager.messages == old(messager.messages) + HandleFieldMessages(field, owner)
      ensures completed <==> !FieldFails(old(reg.Decl()), field, owner)
    {
      var enclosingClazz := GetBuilderNameFor(field, Some(owner));
      if ContainsAny(field.modifiers, [FINAL, STATIC]) {
        MessageElementAnnotatedWith(messager, ERROR, BuildingBlockSimpleName, FinalOrStatic, field);
        RegistryUnchanged(reg);
        return true;
      }
      MessagerOutside(reg, messager);
      if ContainsNone(field.modifiers, [PRIVATE, PROTECTED]) {
        AddPublicVarAssignToRoot(reg, enclosingClazz, field);
        return true;
      } else if owner.buildable.value.writeWithReflection {
        completed := AddReflectionSettingMethod(reg, field, enclosingClazz);
      } else {
        HandleFieldBySetter(reg, field, owner, messager);
        completed := true;
      }
    }

    /** Lines 106-116: an inaccessible field without reflection goes through its class's setter. */
    method HandleFieldBySetter(reg: ClazzBuilder, field: Element, owner: Element, messager: Messager)
      requires reg.Valid() && owner.buildable.Some? && !owner.buildable.value.writeWithReflection
      requires !ContainsAny(field.modifiers, [FINAL, STATIC]) && !IsAccessible(field)
      modifies reg.Repr(), messager
      ensures reg.Valid()
      ensures forall o | o in reg.Repr() :: o in old(reg.Repr()) || fresh(o)
      ensures reg.Decl() == HandleFieldD(old(reg.Decl()), field, owner)
      ensures messager.messages == old(messager.messages) + HandleFieldMessages(field, owner)
    {
      var setterMethod := LookForSetterMethod(owner, GetSetterMethod(field));
      if setterMethod.None? {
        MessagerOutside(reg, messager);
        MessageElementAnnotatedWith(messager, ERROR, BuildingBlockSimpleName, NoSetterMethod, field);
        RegistryUnchanged(reg);
        return;
      }
      HandleMethod(reg, setterMethod.value, owner, messager);
    }

    /** Line 102: the builder is fetched from the registry and given the direct setter. */
    method AddPublicVarAssignToRoot(reg: ClazzBuilder, enclosingClazz: string, field: Element)
      requires reg.Valid()
      modifies reg.Repr()
      ensures reg.Valid()
      ensures forall o | o in reg.Repr() :: o in old(reg.Repr()) || fresh(o)
      ensures reg.Decl() == WithRoot(old(reg.Decl()), enclosingClazz)[enclosingClazz :=
                              PublicVarAssignD(WithRoot(old(reg.Decl()), enclosingClazz)[enclosingClazz], field)]
    {
      ReprCovers(reg);
      var clazz := reg.GetRootForName(enclosingClazz);
      AddPublicVarAssign(reg, enclosingClazz, field);
    }

    /**
     * addReflectionSettingMethod: the setter writes the field through java.lang.reflect;
     * false (a NullPointerException) when the builder has no variable "object".
     */
    method AddReflectionSettingMethod(reg: ClazzBuilder, field: Element, builderName: string) returns (completed: bool)
      requires reg.Valid()
      modifies reg.Repr()
      ensures reg.Valid()
      ensures forall o | o in reg.Repr() :: o in old(reg.Repr()) || fresh(o)
      ensures reg.Decl() == ReflectionSettingD(old(reg.Decl()), field, builderName)
      ensures completed <==> HasVariable(RootD(old(reg.Decl()), builderName).variables, BuildableObjectName)
    {
      ReprCovers(reg);
      var clazz := reg.GetRootForName(builderName);
      var objectVar := VariableFor(clazz.GetVariables(), BuildableObjectName);
      if objectVar.None? {
        return false;
      }
      ReflectiveSetterStored(reg, builderName, field, objectVar.value.typ);
      return true;
    }

    /** Lines 132-144 on the class stored under `name`, whose "object" variable has type `objType`. */
    method ReflectiveSetterStored(reg: ClazzBuilder, name: string, field: Element, objType: string)
      requires reg.Valid() && name in reg.cache
      modifies reg.cache[name], reg.cache[name].methods.Values
      ensures reg.Valid()
      ensures forall o | o in reg.Repr() :: o in old(reg.Repr()) || fresh(o)
      ensures reg.Decl() == old(reg.Decl())[name := WithSetterD(old(reg.Decl())[name], field, name, ReflectiveFieldLine(objType, field))]
    {
      var text := ReflectiveFieldTry(objType, GetElementNameSimple(field));
      RegistryUnchanged(reg);
      SetterStored(reg, name, field, name, text);
    }

    /** The try block of addReflectionSettingMethod, built line by line and rendered at depth 2. */
    method ReflectiveFieldTry(objType: string, fieldName: string) returns (text: string)
      ensures text == RenderTry(ReflectiveFieldTryD(objType, fieldName), 2)
    {
      var t := ReflectiveFieldTryD(objType, fieldName);
      var theTry := new TryBlock([]);
      theTry.AddLine(t.lines[0]);
      theTry.AddLine(t.lines[1]);
      theTry.AddLine(t.lines[2]);
      theTry.AddLine(t.lines[3]);
      theTry.AddLineToCatchClause("", FieldAccessExceptions);
      assert theTry.Decl() == t;
      text := theTry.Build(2);
    }

    /** addPublicVarAssign on the class stored under `name`: "object.f = param;". */
    method AddPublicVarAssign(reg: ClazzBuilder, name: string, element: Element)
      requires reg.Valid() && name in reg.cache
      modifies reg.cache[name], reg.cache[name].methods.Values
      ensures reg.Valid()
      ensures forall o | o in reg.Repr() :: o in old(reg.Repr()) || fresh(o)
      ensures reg.Decl() == old(reg.Decl())[name := PublicVarAssignD(old(reg.Decl())[name], element)]
    {
      var clazz := reg.cache[name];
      SetterStored(reg, name, element, clazz.key, AssignLine(element));
    }

    /** The setter of `field`, completed with `line`, on the class stored under `name`. */
    method SetterStored(reg: ClazzBuilder, name: string, field: Element, builder: string, line: string)
      requires reg.Valid() && name in reg.cache
      modifies reg.cache[name], reg.cache[name].methods.Values
      ensures reg.Valid()
      ensures forall o | o in reg.Repr() :: o in old(reg.Repr()) || fresh(o)
      ensures reg.Decl() == old(reg.Decl())[name := WithSetterD(old(reg.Decl())[name], field, builder, line)]
    {
      var c := reg.cache[name];
      AddSetter(c, field, builder, line);
      ClazzUpdated((reg, name, null));
      GrownByClazz((reg, name));
    }

    /** The setter of `field` is fetched from class `c` and completed with `line`. */
    method AddSetter(c: Clazz, field: Element, builder: string, line: string)
      requires c.Valid()
      modifies c, c.methods.Values
      ensures c.Valid() && c.key == old(c.key)
      ensures c.Decl() == WithSetterD(old(c.Decl()), field, builder, line)
      ensures forall m | m in c.methods.Values :: m in old(c.methods.Values) || fresh(m)
    {
      var k := GetSetterMethod(field);
      var m := c.FetchMethod(k);
      ghost var d1 := c.Decl();
      label Fetched:
      CompleteSetter(m, field, builder, line);
      MethodUpdatedValid@Fetched((c, k));
      MethodUpdated@Fetched((c, k));
    }

    /** A new parameter "param" of the field's type, the return type, `line` and the return. */
    method CompleteSetter(m: Method, field: Element, builder: string, line: string)
      requires m.Valid()
      modifies m
      ensures m.Valid() && m.key == old(m.key)
      ensures m.Decl() == SetterD(old(m.Decl()), field, builder, line)
    {
      var param := new Variable(GetElementType(field), SetterMethodParamName);
      m.SetReturnType(builder);
      m.AddParameter(param);
      m.AddLine(line);
      m.AddReturnStatement("this");
    }

    /** handleMethod: the checks, then the invoker on the builder of the enclosing class. */
    method HandleMethod(reg: ClazzBuilder, methodEl: Element, owner: Element, messager: Messager)
      requires reg.Valid()
      modifies reg.Repr(), messager
      ensures reg.Valid()
      ensures forall o | o in reg.Repr() :: o in old(reg.Repr()) || fresh(o)
      ensures reg.Decl() == HandleMethodD(old(reg.Decl()), methodEl, owner)
      ensures messager.messages == old(messager.messages) + HandleMethodMessages(methodEl)
    {
      var enclosingClazz := GetBuilderNameFor(methodEl, Some(owner));
      var proceed := CheckMethod(methodEl, messager);
      RegistryUnchanged(reg);
      if proceed {
        MessagerOutside(reg, messager);
        AddInvokerToRoot(reg, enclosingClazz, methodEl);
      }
    }

    /** Lines 175-185: the builder is fetched from the registry and given the invoker. */
    method AddInvokerToRoot(reg: ClazzBuilder, enclosingClazz: string, methodEl: Element)
      requires reg.Valid()
      modifies reg.Repr()
      ensures reg.Valid()
      ensures forall o | o in reg.Repr() :: o in old(reg.Repr()) || fresh(o)
      ensures reg.Decl() == WithRoot(old(reg.Decl()), enclosingClazz)[enclosingClazz :=
                              WithInvokerD(WithRoot(old(reg.Decl()), enclosingClazz)[enclosingClazz], methodEl, enclosingClazz)]
    {
      ReprCovers(reg);
      var clazz := reg.GetRootForName(enclosingClazz);
      InvokerStored(reg, enclosingClazz, methodEl);
    }

    /** Lines 160-173: the ERROR for an inaccessible method, the WARNING for a non-void one. */
    method CheckMethod(methodEl: Element, messager: Messager) returns (proceed: bool)
      modifies messager
      ensures proceed <==> Invokable(methodEl)
      ensures messager.messages == old(messager.messages) + HandleMethodMessages(methodEl)
    {
      if ContainsAny(methodEl.modifiers, [PRIVATE, PROTECTED]) {
        MessageElementAnnotatedWith(messager, ERROR, BuildingBlockSimpleName, NotAccessible, methodEl);
        return false;
      }
      if !IsExecutable(methodEl) {
        return false;
      } else if !methodEl.returnsVoid {
        MessageElementAnnotatedWith(messager, WARNING, BuildingBlockSimpleName, ReturnIgnored, methodEl);
      }
      return true;
    }

    /** The invoker of `methodEl` on the class stored under `name`. */
    method InvokerStored(reg: ClazzBuilder, name: string, methodEl: Element)
      requires reg.Valid() && name in reg.cache
      modifies reg.cache[name], reg.cache[name].methods.Values
      ensures reg.Valid()
      ensures forall o | o in reg.Repr() :: o in old(reg.Repr()) || fresh(o)
      ensures reg.Decl() == old(reg.Decl())[name := WithInvokerD(old(reg.Decl())[name], methodEl, name)]
    {
      var c := reg.cache[name];
      AddInvoker(c, methodEl, name);
      ClazzUpdated((reg, name, null));
      GrownByClazz((reg, name));
    }

    /** Lines 176-185 on class `c`: the method keyed by the method's name, completed. */
    method AddInvoker(c: Clazz, methodEl: Element, builder: string)
      requires c.Valid()
      modifies c, c.methods.Values
      ensures c.Valid() && c.key == old(c.key)
      ensures c.Decl() == WithInvokerD(old(c.Decl()), methodEl, builder)
      ensures forall m | m in c.methods.Values :: m in old(c.methods.Values) || fresh(m)
    {
      var k := GetElementNameSimple(methodEl);
      var m := c.FetchMethod(k);
      ghost var d1 := c.Decl();
      label Fetched:
      CompleteInvoker(m, methodEl, builder);
      MethodUpdatedValid@Fetched((c, k));
      MethodUpdated@Fetched((c, k));
    }

    /** Lines 177-185 on the fetched method: return type, renamed parameters, the call and the return. */
    method CompleteInvoker(m: Method, methodEl: Element, builder: string)
      requires m.Valid()
      modifies m
      ensures m.Valid() && m.key == old(m.key)
      ensures m.Decl() == InvokerD(old(m.Decl()), methodEl, builder)
    {
      var methodName := GetElementNameSimple(methodEl);
      m.SetReturnType(builder);
      AddRenamedParameters(m, methodEl.parameters);
      var parametersAsStr := Keys(m.GetParameters());
      m.AddLine(CreateMethodCall(BuildableObjectName, methodName, parametersAsStr));
      m.AddReturnStatement("this");
    }
  }
}
