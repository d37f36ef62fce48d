/**
 * BuildableHandler: for every class annotated with @Buildable, the skeleton of its builder:
 * the package, the private field "object" holding the instance under construction, and
 * one constructor per usable constructor of the class, calling it directly or, for the
 * inaccessible ones when reflection is enabled, through java.lang.reflect.
 */
module BuildableHandlers {

  import opened Wrappers
  import opened Strings
  import opened Host
  import opened BeelderConstants
  import opened BeelderUtils
  import opened ElementUtils
  import opened Types
  import opened Variables
  import opened Methods
  import opened Statements
  import opened Clazzes
  import opened Registry

  /** The exceptions the reflective constructor catches, in one clause. */
  const ReflectiveConstructorExceptions: seq<string> :=
    ["NoSuchMethodException", "IllegalAccessException", "InstantiationException",
     "java.lang.reflect.InvocationTargetException"]

  /** The endings of the handler's diagnostics. */
  const PrivateOrAbstract := "but is private or abstract"
  const NoAccessibleConstructor := "but contains no accessible constructor"
  const PublicConstructors := "but contains one or more public constructors"

  /**
   * The builder an annotated type contributes to (getBuilderNameFor): a class its own, any
   * other type the one named after the element enclosing it.
   */
  function BuilderOf(x: Member): string {
    GetBuilderNameFor(x.element, Some(x.enclosing))
  }

  /** One diagnostic about `e` under @Buildable. */
  function BuildableMessage(kind: DiagnosticKind, e: Element, suffix: string): Diagnostic {
    Diagnostic(kind, MessageText(e.kind, e.display, BuildableSimpleName, suffix))
  }

  // ---------------------------------------------------------------------------------------
  // checkClass

  /** checkClass on values: one ERROR exactly when the class is abstract or private. */
  function CheckClassMessages(e: Element): (ds: seq<Diagnostic>)
    ensures ds == [] || ds == [BuildableMessage(ERROR, e, PrivateOrAbstract)]
    ensures ds != [] <==> ABSTRACT in e.modifiers || PRIVATE in e.modifiers
  {
    ContainsOfTwo(e.modifiers, ABSTRACT, PRIVATE);
    if ContainsAny(e.modifiers, [ABSTRACT, PRIVATE]) then [BuildableMessage(ERROR, e, PrivateOrAbstract)] else []
  }

  /** checkClass: reports an abstract or private class; processing goes on either way. */
  method CheckClass(e: Element, messager: Messager)
    modifies messager
    ensures messager.messages == old(messager.messages) + CheckClassMessages(e)
  {
    if ContainsAny(e.modifiers, [ABSTRACT, PRIVATE]) {
      MessageElementAnnotatedWith(messager, ERROR, BuildableSimpleName, PrivateOrAbstract, e);
    }
  }

  // ---------------------------------------------------------------------------------------
  // The constructor partition

  /** isConstructor, and not marked @Excluded. */
  predicate IsBridgeable(e: Element) {
    e.kind == CONSTRUCTOR && !e.excluded
  }

  /** Neither private nor protected. */
  predicate IsAccessible(e: Element) {
    ContainsNone(e.modifiers, [PRIVATE, PROTECTED])
  }

  predicate IsInaccessible(e: Element) {
    !IsAccessible(e)
  }

  /** The class's constructors that are bridged when usable: those not marked @Excluded. */
  function Candidates(cls: Element): seq<Element> {
    Filter(IsBridgeable, cls.enclosed)
  }

  function AccessibleOf(cls: Element): seq<Element> {
    Filter(IsAccessible, Candidates(cls))
  }

  function InaccessibleOf(cls: Element): seq<Element> {
    Filter(IsInaccessible, Candidates(cls))
  }

  /** Every candidate constructor is accessible or inaccessible, and none is both. */
  lemma CandidatesPartitioned(cls: Element)
    ensures multiset(AccessibleOf(cls)) + multiset(InaccessibleOf(cls)) == multiset(Candidates(cls))
    ensures |AccessibleOf(cls)| + |InaccessibleOf(cls)| == |Candidates(cls)|
  {
    FilterPartition(IsAccessible, IsInaccessible, Candidates(cls));
    assert |multiset(AccessibleOf(cls))| + |multiset(InaccessibleOf(cls))| == |multiset(Candidates(cls))|;
  }

  /**
   * writeWithReflection of the @Buildable that fetchAnnotationForEnclosing finds: a class's
   * own, the enclosing element's for any other type; None where that lookup yields null and
   * reading the flag throws.
   */
  function Reflection(x: Member): Option<bool>
  {
    match FetchAnnotationForEnclosing((e: Element) => e.buildable, x.element, Some(x.enclosing))
    case Some(a) => Some(a.writeWithReflection)
    case None => None
  }

  // ---------------------------------------------------------------------------------------
  // The bridges

  /** createMethodBase: a method keyed "" returning the builder, with the renamed parameters. */
  function MethodBaseD(builder: string, con: Element): MethodDecl {
    MethodDecl("", [], RenamedParameters(con.parameters, 0), [], builder)
  }

  /** The line of a public bridge: "this.object = new Q(param0, ...);". */
  function NewInstanceLine(sourceName: string, ps: seq<VariableDecl>): string {
    CreateAssignment("this", BuildableObjectName, "new " + sourceName + "(" + Join(Keys(ps), ", ") + ")")
  }

  /** addPublicConstructorToClazz on values. */
  function PublicBridgeD(builder: string, sourceName: string, con: Element): MethodDecl {
    var base := MethodBaseD(builder, con);
    base.(content := [NewInstanceLine(sourceName, base.parameters)])
  }

  /** The try block of a reflective bridge: four lines and one catch clause with an empty line. */
  function ReflectiveTryD(sourceName: string, ps: seq<VariableDecl>): TryDecl {
    var catches := Join(ReflectiveConstructorExceptions, " | ");
    var classes := seq(|ps|, i requires 0 <= i < |ps| => ps[i].typ + ".class");
    TryDecl(["java.lang.reflect.Constructor<?> constructor = " + sourceName
               + ".class.getDeclaredConstructor(" + Join(classes, ", ") + ");",
             "constructor.setAccessible(true);",
             ReplaceAll(CreateAssignToMethodCall("this", BuildableObjectName, "constructor", "newInstance", Keys(ps)),
                        "= ", "= (" + sourceName + ") "),
             "constructor.setAccessible(false);"],
            map[catches := [""]], [catches])
  }

  /** addReflectionConstructorToClazz on values. */
  function ReflectionBridgeD(builder: string, sourceName: string, con: Element): MethodDecl {
    var base := MethodBaseD(builder, con);
    base.(content := [RenderTry(ReflectiveTryD(sourceName, base.parameters), 2)])
  }

  function PublicBridges(builder: string, sourceName: string, cons: seq<Element>): (bs: seq<MethodDecl>)
    ensures |bs| == |cons| && forall i :: 0 <= i < |cons| ==> bs[i] == PublicBridgeD(builder, sourceName, cons[i])
  {
    seq(|cons|, i requires 0 <= i < |cons| => PublicBridgeD(builder, sourceName, cons[i]))
  }

  function ReflectionBridges(builder: string, sourceName: string, cons: seq<Element>): (bs: seq<MethodDecl>)
    ensures |bs| == |cons| && forall i :: 0 <= i < |cons| ==> bs[i] == ReflectionBridgeD(builder, sourceName, cons[i])
  {
    seq(|cons|, i requires 0 <= i < |cons| => ReflectionBridgeD(builder, sourceName, cons[i]))
  }

  /** One more constructor bridged publicly adds its bridge at the end. */
  lemma PublicBridgesSnoc(pre: seq<MethodDecl>, builder: string, sourceName: string, cons: seq<Element>, i: nat)
    requires i < |cons|
    ensures pre + PublicBridges(builder, sourceName, cons[..i + 1])
         == pre + PublicBridges(builder, sourceName, cons[..i]) + [PublicBridgeD(builder, sourceName, cons[i])]
  {
    var a, b := PublicBridges(builder, sourceName, cons[..i + 1]), PublicBridges(builder, sourceName, cons[..i]);
    assert forall j | 0 <= j < i :: cons[..i + 1][j] == cons[..i][j];
    SeqSnoc(pre, a, b);
  }

  /** One more constructor bridged reflectively adds its bridge at the end. */
  lemma ReflectionBridgesSnoc(pre: seq<MethodDecl>, builder: string, sourceName: string, cons: seq<Element>, i: nat)
    requires i < |cons|
    ensures pre + ReflectionBridges(builder, sourceName, cons[..i + 1])
         == pre + ReflectionBridges(builder, sourceName, cons[..i]) + [ReflectionBridgeD(builder, sourceName, cons[i])]
  {
    var a, b := ReflectionBridges(builder, sourceName, cons[..i + 1]), ReflectionBridges(builder, sourceName, cons[..i]);
    assert forall j | 0 <= j < i :: cons[..i + 1][j] == cons[..i][j];
    SeqSnoc(pre, a, b);
  }

  /** No accessible constructor while reflection is off: nothing can be bridged. */
  predicate Unbuildable(cls: Element, reflect: bool)
  {
    AccessibleOf(cls) == [] && !reflect
  }

  /** Some accessible constructor is public. */
  predicate HasPublicConstructor(cls: Element) {
    exists i :: 0 <= i < |AccessibleOf(cls)| && PUBLIC in AccessibleOf(cls)[i].modifiers
  }

  /** addConstructorsToClass on values: the constructors it appends to builder `builder`. */
  function BridgesD(builder: string, cls: Element, reflect: bool): seq<MethodDecl>
  {
    var q := GetElementNameQualified(cls);
    if Unbuildable(cls, reflect) then []
    else PublicBridges(builder, q, AccessibleOf(cls))
         + (if reflect then ReflectionBridges(builder, q, InaccessibleOf(cls)) else [])
  }

  /** addConstructorsToClass on values: the diagnostics it reports. */
  function ConstructorMessages(cls: Element, reflect: bool): seq<Diagnostic>
  {
    if Unbuildable(cls, reflect) then [BuildableMessage(ERROR, cls, NoAccessibleConstructor)]
    else if HasPublicConstructor(cls) then [BuildableMessage(WARNING, cls, PublicConstructors)]
    else []
  }

  /**
   * Without an accessible constructor and without reflection the class gets one ERROR and
   * no constructor; otherwise there is no ERROR, and a WARNING exactly when an accessible
   * constructor is public.
   */
  lemma ConstructorDiagnostics(builder: string, cls: Element, reflect: bool)
    ensures Unbuildable(cls, reflect) ==>
              ConstructorMessages(cls, reflect) == [BuildableMessage(ERROR, cls, NoAccessibleConstructor)]
              && BridgesD(builder, cls, reflect) == []
    ensures !Unbuildable(cls, reflect) ==> forall d | d in ConstructorMessages(cls, reflect) :: d.kind == WARNING
    ensures (exists d :: d in ConstructorMessages(cls, reflect) && d.kind == WARNING)
            <==> exists c :: c in AccessibleOf(cls) && PUBLIC in c.modifiers
  {
    if Unbuildable(cls, reflect) {
      assert forall c :: c !in AccessibleOf(cls);
    } else if exists c :: c in AccessibleOf(cls) && PUBLIC in c.modifiers {
      var c :| c in AccessibleOf(cls) && PUBLIC in c.modifiers;
      var i :| 0 <= i < |AccessibleOf(cls)| && AccessibleOf(cls)[i] == c;
      assert ConstructorMessages(cls, reflect)[0].kind == WARNING;
    }
  }

  /** `b` is the public or the reflective bridge of constructor `con` to builder `builder`. */
  predicate BridgedFrom(b: MethodDecl, builder: string, sourceName: string, con: Element) {
    b == PublicBridgeD(builder, sourceName, con) || b == ReflectionBridgeD(builder, sourceName, con)
  }

  /**
   * One bridge per usable constructor: each accessible one, and with reflection each
   * inaccessible one; a constructor marked @Excluded, or any other element, never gets one.
   */
  lemma BridgesFromCandidates(builder: string, cls: Element, reflect: bool)
    ensures !Unbuildable(cls, reflect) ==>
              |BridgesD(builder, cls, reflect)| == |AccessibleOf(cls)| + (if reflect then |InaccessibleOf(cls)| else 0)
    ensures forall b | b in BridgesD(builder, cls, reflect) ::
              exists con :: con in cls.enclosed && con.kind == CONSTRUCTOR && !con.excluded
                && BridgedFrom(b, builder, GetElementNameQualified(cls), con)
  {
    var q := GetElementNameQualified(cls);
    var bs := BridgesD(builder, cls, reflect);
    if !Unbuildable(cls, reflect) {
      BridgesCount(builder, cls, reflect);
      forall b | b in bs
        ensures exists con :: con in cls.enclosed && con.kind == CONSTRUCTOR && !con.excluded
                  && BridgedFrom(b, builder, q, con)
      {
        var k :| 0 <= k < |bs| && bs[k] == b;
        var con := BridgeOrigin(builder, cls, reflect, k);
      }
    }
  }

  /** The number of bridges: the accessible constructors, and with reflection the others. */
  lemma BridgesCount(builder: string, cls: Element, reflect: bool)
    requires !Unbuildable(cls, reflect)
    ensures |BridgesD(builder, cls, reflect)| == |AccessibleOf(cls)| + (if reflect then |InaccessibleOf(cls)| else 0)
  {
    var q := GetElementNameQualified(cls);
    assert BridgesD(builder, cls, reflect) == PublicBridges(builder, q, AccessibleOf(cls))
         + (if reflect then ReflectionBridges(builder, q, InaccessibleOf(cls)) else []);
  }

  /** The constructor the k-th bridge was made from. */
  lemma BridgeOrigin(builder: string, cls: Element, reflect: bool, k: nat) returns (con: Element)
    requires !Unbuildable(cls, reflect) && k < |BridgesD(builder, cls, reflect)|
    ensures con in cls.enclosed && con.kind == CONSTRUCTOR && !con.excluded
    ensures BridgedFrom(BridgesD(builder, cls, reflect)[k], builder, GetElementNameQualified(cls), con)
  {
    var acc, inacc := AccessibleOf(cls), InaccessibleOf(cls);
    BridgeAt(builder, cls, reflect, k);
    con := if k < |acc| then acc[k] else inacc[k - |acc|];
    CandidateOrigin(cls, con);
  }

  /** The k-th bridge: the public bridge of the k-th accessible constructor, then the reflective ones. */
  lemma BridgeAt(builder: string, cls: Element, reflect: bool, k: nat)
    requires !Unbuildable(cls, reflect) && k < |BridgesD(builder, cls, reflect)|
    ensures var q, acc, inacc := GetElementNameQualified(cls), AccessibleOf(cls), InaccessibleOf(cls);
            if k < |acc| then BridgesD(builder, cls, reflect)[k] == PublicBridgeD(builder, q, acc[k])
            else reflect && k - |acc| < |inacc|
                 && BridgesD(builder, cls, reflect)[k] == ReflectionBridgeD(builder, q, inacc[k - |acc|])
  {
    var q := GetElementNameQualified(cls);
    var acc, inacc := AccessibleOf(cls), InaccessibleOf(cls);
    var pub := PublicBridges(builder, q, acc);
    var refl := if reflect then ReflectionBridges(builder, q, inacc) else [];
    assert BridgesD(builder, cls, reflect) == pub + refl;
    if k >= |pub| {
      assert refl[k - |pub|] == ReflectionBridgeD(builder, q, inacc[k - |pub|]);
    }
  }

  /** A constructor in either half of the partition is a bridgeable constructor of the class. */
  lemma CandidateOrigin(cls: Element, con: Element)
    requires con in AccessibleOf(cls) || con in InaccessibleOf(cls)
    ensures con in cls.enclosed && con.kind == CONSTRUCTOR && !con.excluded
  {
    FilterMembers(IsBridgeable, cls.enclosed);
    FilterMembers(IsAccessible, Candidates(cls));
    FilterMembers(IsInaccessible, Candidates(cls));
  }

  /**
   * A public bridge for a constructor with n parameters: key "", returning the builder,
   * parameters of the constructor's types named param0 .. param(n-1), pairwise different,
   * and the single line "this.object = new Q(...)" passing exactly those names.
   */
  lemma PublicBridgeShape(builder: string, sourceName: string, con: Element)
    ensures var b := PublicBridgeD(builder, sourceName, con);
            b.key == "" && b.returnType == builder && b.modifiers == []
            && |b.parameters| == |con.parameters|
            && (forall i :: 0 <= i < |con.parameters| ==>
                  b.parameters[i].key == ParamName(i) && b.parameters[i].typ == GetElementType(con.parameters[i]))
            && NoDuplicates(Keys(b.parameters))
            && b.content == ["this." + BuildableObjectName + " = new " + sourceName + "("
                             + Join(ParamNames(|con.parameters|), ", ") + ");"]
  {
    var b := PublicBridgeD(builder, sourceName, con);
    RenamedParametersDistinct(con.parameters, 0);
    var names := ParamNames(|con.parameters|);
    assert Keys(b.parameters) == names;
    var j := Join(names, ", ");
    var pre := "this" + "." + BuildableObjectName + " = ";
    assert pre == "this." + BuildableObjectName + " = ";
    assert NewInstanceLine(sourceName, b.parameters) == pre + ("new " + sourceName + "(" + j + ")") + ";";
    assert pre + ("new " + sourceName + "(" + j + ")") == pre + "new " + sourceName + "(" + j + ")";
    assert pre + "new " == "this." + BuildableObjectName + " = new ";
    assert pre + "new " + sourceName + "(" + j + ")" + ";" == pre + "new " + sourceName + "(" + j + ");";
  }

  /**
   * A reflective bridge has the renamed parameters too, and its body is one try block of
   * four lines whose single catch clause joins the four exception names with " | "; the
   * instance it creates is cast to the source class.
   */
  lemma ReflectionBridgeShape(builder: string, sourceName: string, con: Element)
    ensures var b := PublicBridgeD(builder, sourceName, con);
            var r := ReflectionBridgeD(builder, sourceName, con);
            var t := ReflectiveTryD(sourceName, r.parameters);
            r.key == "" && r.returnType == builder && r.parameters == b.parameters
            && r.content == [RenderTry(t, 2)]
            && |t.lines| == 4
            && t.catchOrder == ["NoSuchMethodException" + " | " + "IllegalAccessException" + " | "
                                + "InstantiationException" + " | " + "java.lang.reflect.InvocationTargetException"]
            && t.catchClauses == map[t.catchOrder[0] := [""]]
            && t.lines[2] == "this." + BuildableObjectName + " = (" + sourceName + ") constructor.newInstance("
                             + Join(Keys(r.parameters), ", ") + ");"
  {
    var r := ReflectionBridgeD(builder, sourceName, con);
    var ks := Keys(r.parameters);
    forall i | 0 <= i < |ks|
      ensures '=' !in ks[i]
    {
      assert ks[i] == SetterMethodParamName + NatToString(i);
    }
    CastNewInstanceLine(sourceName, ks);
    ReflectiveCatchKey();
  }

  /** The one catch clause of a reflective bridge names the four exceptions joined by " | ". */
  lemma ReflectiveCatchKey()
    ensures Join(ReflectiveConstructorExceptions, " | ")
         == "NoSuchMethodException" + " | " + "IllegalAccessException" + " | " + "InstantiationException"
            + " | " + "java.lang.reflect.InvocationTargetException"
  {
    var a, b, c, d := "NoSuchMethodException", "IllegalAccessException", "InstantiationException",
                      "java.lang.reflect.InvocationTargetException";
    assert Join([a, b], " | ") == a + " | " + b by {
      assert [a, b][1..] == [b];
    }
    JoinSnoc([a, b], " | ", c);
    assert [a, b] + [c] == [a, b, c];
    JoinSnoc([a, b, c], " | ", d);
    assert ReflectiveConstructorExceptions == [a, b, c] + [d];
  }

  /**
   * replace("= ", "= (Q) ") on the assignment of constructor.newInstance(...) casts the new
   * instance to Q: the only "= " of that line is the assignment's own, since no argument
   * name holds '='.
   */
  lemma CastNewInstanceLine(sourceName: string, ks: seq<string>)
    requires forall i :: 0 <= i < |ks| ==> '=' !in ks[i]
    ensures ReplaceAll(CreateAssignToMethodCall("this", BuildableObjectName, "constructor", "newInstance", ks),
                       "= ", "= (" + sourceName + ") ")
         == "this." + BuildableObjectName + " = (" + sourceName + ") constructor.newInstance("
            + Join(ks, ", ") + ");"
  {
    JoinAvoids(ks, ", ", '=');
    var j := Join(ks, ", ");
    var rest := "constructor.newInstance(" + j + ");";
    var repl := "= (" + sourceName + ") ";
    var x := "this.object ";
    var line := CreateAssignToMethodCall("this", BuildableObjectName, "constructor", "newInstance", ks);
    assert line == x + "= " + rest by {
      NewInstanceAssignment(ks);
    }
    assert ReplaceAll(x + "= " + rest, "= ", repl) == x + repl + rest by {
      assert '=' !in rest && '=' !in x;
      ReplaceAllOnce(x, rest, "= ", repl);
    }
    CastLineText(sourceName, j);
  }

  /** The cast line, reassembled. */
  lemma CastLineText(sourceName: string, j: string)
    ensures "this.object " + ("= (" + sourceName + ") ") + ("constructor.newInstance(" + j + ");")
         == "this." + BuildableObjectName + " = (" + sourceName + ") constructor.newInstance(" + j + ");"
  {
  }

  /** The uncast line assigns constructor.newInstance(...) to this.object. */
  lemma NewInstanceAssignment(ks: seq<string>)
    ensures CreateAssignToMethodCall("this", BuildableObjectName, "constructor", "newInstance", ks)
         == "this.object " + "= " + ("constructor.newInstance(" + Join(ks, ", ") + ");")
  {
  }

  // ---------------------------------------------------------------------------------------
  // The skeleton of one class, and of the registry

  /** The variable every builder holds: private "object" of the source class's type. */
  function HeldObject(cls: Element): VariableDecl {
    VariableDecl(GetElementNameQualified(cls), BuildableObjectName, None, WithModifiers([], [PRIVATE]))
  }

  /** Lines 49-52 on the builder class `d`: the package of the annotated type, then the held object. */
  function PreparedD(d: ClazzDecl, cls: Element): ClazzDecl {
    var q := GetElementNameQualified(cls);
    AddVariableD(d.(packageIdent := Some(SubstringBeforeLast(q, '.'))), HeldObject(cls))
  }

  /**
   * addConstructorsToClass on values: the bridges appended to builder `builder`, none when
   * reading writeWithReflection throws.
   */
  function ConstructorsOf(builder: string, x: Member): seq<MethodDecl> {
    match Reflection(x)
    case Some(reflect) => BridgesD(builder, x.element, reflect)
    case None => []
  }

  /** addConstructorsToClass on values: its diagnostics, none when it throws. */
  function ConstructorMessagesOf(x: Member): seq<Diagnostic> {
    match Reflection(x)
    case Some(reflect) => ConstructorMessages(x.element, reflect)
    case None => []
  }

  /** Lines 49-53 on the builder class `d`: package, held object, constructors. */
  function SkeletonD(d: ClazzDecl, x: Member): ClazzDecl
  {
    var d1 := PreparedD(d, x.element);
    d1.(constructors := d1.constructors + ConstructorsOf(d.key, x))
  }

  /**
   * The builder lies in the annotated type's package (its qualified name before the last
   * "."), holds exactly one "object" variable when its variables had distinct keys, keeps
   * its methods and key, and gains exactly the bridges after its earlier constructors.
   */
  lemma SkeletonEffect(d: ClazzDecl, x: Member)
    ensures var r := SkeletonD(d, x);
            r.packageIdent == Some(SubstringBeforeLast(GetElementNameQualified(x.element), '.'))
            && HasVariable(r.variables, BuildableObjectName)
            && (DistinctKeys(d.variables) ==> DistinctKeys(r.variables))
            && (HasVariable(d.variables, BuildableObjectName) ==> r.variables == d.variables)
            && r.key == d.key && r.methods == d.methods && r.methodOrder == d.methodOrder
            && r.constructors == d.constructors + ConstructorsOf(d.key, x)
  {
    var r := SkeletonD(d, x);
    var held := HeldObject(x.element);
    if !HasVariable(d.variables, BuildableObjectName) {
      assert r.variables[|d.variables|] == held;
      if DistinctKeys(d.variables) {
        AddVariableKeepsKeysDistinct(d, held);
      }
    }
  }

  /** handleAnnotation's loop body throws exactly when no @Buildable is found for the type. */
  predicate BuildableFails(x: Member) {
    Reflection(x).None?
  }

  /** One element of handleAnnotation on the registry: the builder class gets its skeleton. */
  function BuildableD(r: RegistryDecl, x: Member): RegistryDecl
  {
    var name := BuilderOf(x);
    r[name := SkeletonD(RootD(r, name), x)]
  }

  /** The skeleton built on the class stored under `name`, in place. */
  function StoreSkeleton(r: RegistryDecl, name: string, x: Member): RegistryDecl
    requires name in r
  {
    r[name := SkeletonD(r[name], x)]
  }

  /** getRootForName followed by the skeleton of what it returned is BuildableD. */
  lemma SkeletonAfterRoot(r: RegistryDecl, x: Member)
    ensures var name := BuilderOf(x);
            StoreSkeleton(WithRoot(r, name), name, x) == BuildableD(r, x)
  {
    var name := BuilderOf(x);
    WithRootThenStore(r, name, SkeletonD(RootD(r, name), x));
  }

  lemma BuildableMessagesAppend(m0: seq<Diagnostic>, m1: seq<Diagnostic>, m2: seq<Diagnostic>, x: Member)
    requires m1 == m0 + CheckClassMessages(x.element) && m2 == m1 + ConstructorMessagesOf(x)
    ensures m2 == m0 + BuildableMessages(x)
  {
    AppendAssoc(m0, CheckClassMessages(x.element), ConstructorMessagesOf(x));
  }

  /** One element of handleAnnotation: the diagnostics, in order. */
  function BuildableMessages(x: Member): seq<Diagnostic>
  {
    CheckClassMessages(x.element) + ConstructorMessagesOf(x)
  }

  /**
   * A class is its own builder's source: "<SimpleName>Builder", with the reflection flag of
   * its own @Buildable.
   */
  lemma ClassBuilder(x: Member)
    requires x.element.kind == CLASS
    ensures BuilderOf(x) == x.element.simpleName + BuildableClassSuffix
    ensures Reflection(x) == if x.element.buildable.Some? then Some(x.element.buildable.value.writeWithReflection) else None
  {
  }

  /**
   * An annotated interface or enum fills the builder named after its enclosing element,
   * with that element's reflection flag, and moves the builder into its own package; when
   * the enclosing element carries no @Buildable (a top-level type, whose enclosing element
   * is its package) the handler throws after the package and the held object were set,
   * with only checkClass's diagnostics and no constructor added.
   */
  lemma NestedBuilder(r: RegistryDecl, x: Member)
    requires x.element.kind != CLASS
    ensures BuilderOf(x) == x.enclosing.simpleName + BuildableClassSuffix
    ensures x.enclosing.buildable.Some? ==> Reflection(x) == Some(x.enclosing.buildable.value.writeWithReflection)
    ensures x.enclosing.buildable.None? ==>
              BuildableFails(x) && BuildableMessages(x) == CheckClassMessages(x.element)
              && BuildableD(r, x)[BuilderOf(x)] == PreparedD(RootD(r, BuilderOf(x)), x.element)
    ensures BuildableD(r, x)[BuilderOf(x)].packageIdent
         == Some(SubstringBeforeLast(GetElementNameQualified(x.element), '.'))
  {
    var d := RootD(r, BuilderOf(x));
    if x.enclosing.buildable.None? {
      assert BuildableMessages(x) == CheckClassMessages(x.element) + [];
      assert SkeletonD(d, x) == PreparedD(d, x.element).(constructors := PreparedD(d, x.element).constructors + []);
    }
  }

  /**
   * Every annotated type's builder ends up in the registry, whatever checkClass reported;
   * no other stored class changes.
   */
  lemma BuildableRegisters(r: RegistryDecl, x: Member)
    ensures var name := BuilderOf(x);
            var r' := BuildableD(r, x);
            r'.Keys == r.Keys + {name} && (forall n :: n in r && n != name ==> r'[n] == r[n])
            && (name !in r ==> r'[name].key == name && r'[name].methods == map[])
    ensures BuildableD(r, x)[BuilderOf(x)] == SkeletonD(RootD(r, BuilderOf(x)), x)
  {
  }

  /** handleAnnotation on values: the annotated types in turn, until one throws. */
  function SkeletonsD(r: RegistryDecl, xs: seq<Member>): Run
  {
    if xs == [] then Run(r, [], false)
    else
      var p := SkeletonsD(r, xs[..|xs| - 1]);
      var x := xs[|xs| - 1];
      if p.failed then p
      else Run(BuildableD(p.reg, x), p.messages + BuildableMessages(x), BuildableFails(x))
  }

  /** One more annotated type, when none before it threw. */
  lemma SkeletonsStep(r: RegistryDecl, m0: seq<Diagnostic>, m1: seq<Diagnostic>, m2: seq<Diagnostic>,
                      xs: seq<Member>, i: nat)
    requires i < |xs| && !SkeletonsD(r, xs[..i]).failed
    requires m1 == m0 + SkeletonsD(r, xs[..i]).messages && m2 == m1 + BuildableMessages(xs[i])
    ensures SkeletonsD(r, xs[..i + 1]).reg == BuildableD(SkeletonsD(r, xs[..i]).reg, xs[i])
    ensures SkeletonsD(r, xs[..i + 1]).failed == BuildableFails(xs[i])
    ensures m2 == m0 + SkeletonsD(r, xs[..i + 1]).messages
  {
    var pre := xs[..i];
    assert xs[..i + 1][..i] == pre;
    var p := SkeletonsD(r, pre);
    assert SkeletonsD(r, xs[..i + 1]) == Run(BuildableD(p.reg, xs[i]), p.messages + BuildableMessages(xs[i]), BuildableFails(xs[i]));
    AppendAssoc(m0, p.messages, BuildableMessages(xs[i]));
  }

  /** Once a type has thrown, the types after it are not handled. */
  lemma {:induction false} SkeletonsStopAtFailure(r: RegistryDecl, xs: seq<Member>, ys: seq<Member>)
    requires SkeletonsD(r, xs).failed
    ensures SkeletonsD(r, xs + ys) == SkeletonsD(r, xs)
  {
    if ys != [] {
      var init := ys[..|ys| - 1];
      assert (xs + ys)[..|xs + ys| - 1] == xs + init;
      SkeletonsStopAtFailure(r, xs, init);
    } else {
      assert xs + ys == xs;
    }
  }

  /** A run whose type `i` throws ends there. */
  lemma {:induction false} SkeletonsFailedPrefix(r: RegistryDecl, xs: seq<Member>, i: nat)
    requires i < |xs| && SkeletonsD(r, xs[..i + 1]).failed
    ensures SkeletonsD(r, xs) == SkeletonsD(r, xs[..i + 1])
  {
    if i + 1 < |xs| {
      var init := xs[..|xs| - 1];
      assert init[..i + 1] == xs[..i + 1];
      SkeletonsFailedPrefix(r, init, i);
    } else {
      assert xs[..i + 1] == xs;
    }
  }

  /** The names of the builders of `xs`. */
  function BuilderNames(xs: seq<Member>): set<string> {
    set x | x in xs :: BuilderOf(x)
  }

  lemma BuilderNamesSnoc(xs: seq<Member>)
    requires xs != []
    ensures BuilderNames(xs) == BuilderNames(xs[..|xs| - 1]) + {BuilderOf(xs[|xs| - 1])}
  {
    assert xs == xs[..|xs| - 1] + [xs[|xs| - 1]];
  }

  /**
   * handleAnnotation throws exactly when some annotated type has no @Buildable to read the
   * reflection flag from; it adds no class but builders of the types, and when it completes
   * every type has its builder.
   */
  lemma {:induction false} SkeletonsRegisterAll(r: RegistryDecl, xs: seq<Member>)
    ensures SkeletonsD(r, xs).failed <==> exists x | x in xs :: BuildableFails(x)
    ensures r.Keys <= SkeletonsD(r, xs).reg.Keys <= r.Keys + BuilderNames(xs)
    ensures !SkeletonsD(r, xs).failed ==> SkeletonsD(r, xs).reg.Keys == r.Keys + BuilderNames(xs)
  {
    if xs != [] {
      var init := xs[..|xs| - 1];
      SkeletonsRegisterAll(r, init);
      SkeletonsRegisterLast(r, xs);
    }
  }

  /** The step of SkeletonsRegisterAll: one more type, given what holds for the ones before it. */
  lemma SkeletonsRegisterLast(r: RegistryDecl, xs: seq<Member>)
    requires xs != []
    requires var init := xs[..|xs| - 1];
             (SkeletonsD(r, init).failed <==> exists x | x in init :: BuildableFails(x))
             && r.Keys <= SkeletonsD(r, init).reg.Keys <= r.Keys + BuilderNames(init)
             && (!SkeletonsD(r, init).failed ==> SkeletonsD(r, init).reg.Keys == r.Keys + BuilderNames(init))
    ensures SkeletonsD(r, xs).failed <==> exists x | x in xs :: BuildableFails(x)
    ensures r.Keys <= SkeletonsD(r, xs).reg.Keys <= r.Keys + BuilderNames(xs)
    ensures !SkeletonsD(r, xs).failed ==> SkeletonsD(r, xs).reg.Keys == r.Keys + BuilderNames(xs)
  {
    var init := xs[..|xs| - 1];
    var last := xs[|xs| - 1];
    var p := SkeletonsD(r, init);
    assert SkeletonsD(r, xs) == if p.failed then p
                                else Run(BuildableD(p.reg, last), p.messages + BuildableMessages(last), BuildableFails(last));
    BuilderNamesSnoc(xs);
    FailsSnoc(xs);
    if !p.failed {
      BuildableRegisters(p.reg, last);
    }
  }

  /** Some type of `xs` fails exactly when one before the last does or the last one does. */
  lemma FailsSnoc(xs: seq<Member>)
    requires xs != []
    ensures (exists x | x in xs :: BuildableFails(x))
            <==> (exists x | x in xs[..|xs| - 1] :: BuildableFails(x)) || BuildableFails(xs[|xs| - 1])
  {
    assert xs == xs[..|xs| - 1] + [xs[|xs| - 1]];
  }

  // ---------------------------------------------------------------------------------------
  // The handler on objects

  /**
   * The parameter loop of createMethodBase (and of BuildingBlockHandler.handleMethod): each
   * element becomes Variable.from of it, renamed "param" + parameterNum(), and is added.
   */
  method AddRenamedParameters(m: Method, ps: seq<Element>)
    requires m.Valid()
    modifies m
    ensures m.Valid() && m.key == old(m.key)
    ensures m.Decl() == old(m.Decl()).(parameters := old(m.parameters) + RenamedParameters(ps, |old(m.parameters)|))
  {
    ghost var from := |m.parameters|;
    var i := 0;
    while i < |ps|
      invariant 0 <= i <= |ps| && m.Valid() && m.key == old(m.key)
      invariant m.Decl() == old(m.Decl()).(parameters := old(m.parameters) + RenamedParameters(ps[..i], from))
    {
      var v := From(ps[i]);
      v.SetKey(ParamName(m.ParameterNum()));
      m.AddParameter(v);
      RenamedParametersSnoc(old(m.parameters), ps, i, from);
      i := i + 1;
    }
    assert ps[..|ps|] == ps;
  }

  /** createMethodBase: a new method keyed "", returning the builder, with the renamed parameters. */
  method CreateMethodBase(clazz: Clazz, con: Element) returns (m: Method)
    ensures fresh(m) && m.Valid() && m.Decl() == MethodBaseD(clazz.key, con)
  {
    m := new Method("", null);
    AddRenamedParameters(m, con.parameters);
    m.SetReturnType(clazz.key);
  }

  /** addPublicConstructorToClazz: appends the public bridge for `con`. */
  method AddPublicConstructorToClazz(clazz: Clazz, sourceName: string, con: Element)
    requires clazz.Valid()
    modifies clazz
    ensures clazz.Valid() && clazz.methods == old(clazz.methods)
    ensures clazz.Decl() == old(clazz.Decl()).(constructors := old(clazz.constructors) + [PublicBridgeD(old(clazz.key), sourceName, con)])
  {
    var m := PublicBridge(clazz, sourceName, con);
    clazz.AddConstructor(m);
  }

  /** The method addPublicConstructorToClazz builds before adding it. */
  method PublicBridge(clazz: Clazz, sourceName: string, con: Element) returns (m: Method)
    ensures fresh(m) && m.Valid() && m.Decl() == PublicBridgeD(clazz.key, sourceName, con)
  {
    m := CreateMethodBase(clazz, con);
    m.AddLine(NewInstanceLine(sourceName, m.GetParameters()));
  }

  /** addReflectionConstructorToClazz: appends the reflective bridge for `con`. */
  method AddReflectionConstructorToClazz(clazz: Clazz, sourceName: string, con: Element)
    requires clazz.Valid()
    modifies clazz
    ensures clazz.Valid() && clazz.methods == old(clazz.methods)
    ensures clazz.Decl() == old(clazz.Decl()).(constructors := old(clazz.constructors) + [ReflectionBridgeD(old(clazz.key), sourceName, con)])
  {
    var m := ReflectionBridge(clazz, sourceName, con);
    clazz.AddConstructor(m);
  }

  /** The method addReflectionConstructorToClazz builds before adding it. */
  method ReflectionBridge(clazz: Clazz, sourceName: string, con: Element) returns (m: Method)
    ensures fresh(m) && m.Valid() && m.Decl() == ReflectionBridgeD(clazz.key, sourceName, con)
  {
    m := CreateMethodBase(clazz, con);
    var block := ReflectiveTry(sourceName, m.GetParameters());
    m.AddLine(block);
  }

  /** The try block of addReflectionConstructorToClazz, built line by line and rendered at depth 2. */
  method ReflectiveTry(sourceName: string, ps: seq<VariableDecl>) returns (text: string)
    ensures text == RenderTry(ReflectiveTryD(sourceName, ps), 2)
  {
    var t := ReflectiveTryD(sourceName, ps);
    var theTry := new TryBlock([]);
    theTry.AddLine(t.lines[0]);
    theTry.AddLine(t.lines[1]);
    theTry.AddLine(t.lines[2]);
    theTry.AddLine(t.lines[3]);
    theTry.AddLineToCatchClauseOf("", ReflectiveConstructorExceptions);
    assert theTry.Decl() == t;
    text := theTry.Build(2);
  }

  /**
   * addConstructorsToClass: reads writeWithReflection, which throws (false, nothing done)
   * when no @Buildable is found; else the diagnostics, the public bridges, the reflective ones.
   */
  method AddConstructorsToClass(clazz: Clazz, x: Member, messager: Messager) returns (completed: bool)
    requires clazz.Valid()
    modifies clazz, messager
    ensures clazz.Valid() && clazz.methods == old(clazz.methods)
    ensures completed <==> !BuildableFails(x)
    ensures clazz.Decl() == old(clazz.Decl()).(constructors := old(clazz.constructors) + ConstructorsOf(old(clazz.key), x))
    ensures messager.messages == old(messager.messages) + ConstructorMessagesOf(x)
  {
    ghost var d0 := clazz.Decl();
    var cls := x.element;
    var annotation := Reflection(x);
    if annotation.None? {
      assert d0.constructors + [] == d0.constructors;
      assert messager.messages + [] == messager.messages;
      return false;
    }
    var reflect := annotation.value;
    var proceed := ReportConstructors(cls, reflect, messager);
    if !proceed {
      assert d0.constructors + BridgesD(d0.key, cls, reflect) == d0.constructors;
      return true;
    }
    var q := GetElementNameQualified(cls);
    var pub := PublicBridges(d0.key, q, AccessibleOf(cls));
    AddPublicConstructors(clazz, q, AccessibleOf(cls));
    if reflect {
      var refl := ReflectionBridges(d0.key, q, InaccessibleOf(cls));
      AddReflectionConstructors(clazz, q, InaccessibleOf(cls));
      AppendAssoc(d0.constructors, pub, refl);
    } else {
      assert pub + [] == pub;
    }
    return true;
  }

  /** Appending twice is appending the concatenation. */
  lemma AppendAssoc<T>(a: seq<T>, b: seq<T>, c: seq<T>)
    ensures a + b + c == a + (b + c)
  {
  }

  /**
   * The checks of addConstructorsToClass: the ERROR that ends it when nothing can be
   * bridged, or else the WARNING about public constructors.
   */
  method ReportConstructors(cls: Element, reflect: bool, messager: Messager) returns (proceed: bool)
    modifies messager
    ensures proceed <==> !Unbuildable(cls, reflect)
    ensures messager.messages == old(messager.messages) + ConstructorMessages(cls, reflect)
  {
    var accessible := AccessibleOf(cls);
    if accessible == [] && !reflect {
      MessageElementAnnotatedWith(messager, ERROR, BuildableSimpleName, NoAccessibleConstructor, cls);
      return false;
    }
    if exists i :: 0 <= i < |accessible| && PUBLIC in accessible[i].modifiers {
      MessageElementAnnotatedWith(messager, WARNING, BuildableSimpleName, PublicConstructors, cls);
    }
    return true;
  }

  /** groupedByPublic.get(true).forEach(addPublicConstructorToClazz). */
  method AddPublicConstructors(clazz: Clazz, q: string, cons: seq<Element>)
    requires clazz.Valid()
    modifies clazz
    ensures clazz.Valid() && clazz.methods == old(clazz.methods)
    ensures clazz.Decl() == old(clazz.Decl()).(constructors := old(clazz.constructors) + PublicBridges(old(clazz.key), q, cons))
  {
    ghost var before := clazz.Decl();
    var i := 0;
    while i < |cons|
      invariant 0 <= i <= |cons| && clazz.Valid() && clazz.methods == old(clazz.methods)
      invariant clazz.Decl() == before.(constructors := before.constructors + PublicBridges(before.key, q, cons[..i]))
    {
      AddPublicConstructorToClazz(clazz, q, cons[i]);
      PublicBridgesSnoc(before.constructors, before.key, q, cons, i);
      i := i + 1;
    }
    assert cons[..|cons|] == cons;
  }

  /** groupedByPublic.get(false).forEach(addReflectionConstructorToClazz). */
  method AddReflectionConstructors(clazz: Clazz, q: string, cons: seq<Element>)
    requires clazz.Valid()
    modifies clazz
    ensures clazz.Valid() && clazz.methods == old(clazz.methods)
    ensures clazz.Decl() == old(clazz.Decl()).(constructors := old(clazz.constructors) + ReflectionBridges(old(clazz.key), q, cons))
  {
    ghost var before := clazz.Decl();
    var i := 0;
    while i < |cons|
      invariant 0 <= i <= |cons| && clazz.Valid() && clazz.methods == old(clazz.methods)
      invariant clazz.Decl() == before.(constructors := before.constructors + ReflectionBridges(before.key, q, cons[..i]))
    {
      AddReflectionConstructorToClazz(clazz, q, cons[i]);
      ReflectionBridgesSnoc(before.constructors, before.key, q, cons, i);
      i := i + 1;
    }
    assert cons[..|cons|] == cons;
  }

  /** The body of handleAnnotation's loop for one annotated type; false when it threw. */
  method HandleElement(reg: ClazzBuilder, x: Member, messager: Messager) returns (completed: bool)
    requires reg.Valid()
    modifies reg, reg.cache.Values, messager
    ensures reg.Valid()
    ensures completed <==> !BuildableFails(x)
    ensures reg.Decl() == BuildableD(old(reg.Decl()), x)
    ensures messager.messages == old(messager.messages) + BuildableMessages(x)
    ensures forall c | c in reg.cache.Values :: c in old(reg.cache.Values) || fresh(c)
  {
    CheckClass(x.element, messager);
    RegistryUnchanged(reg);
    ghost var checked := messager.messages;
    completed := BuildRoot(reg, x, messager);
    BuildableMessagesAppend(old(messager.messages), checked, messager.messages, x);
  }

  /** Lines 48-53: the builder class is fetched from the registry and its skeleton built. */
  method BuildRoot(reg: ClazzBuilder, x: Member, messager: Messager) returns (completed: bool)
    requires reg.Valid()
    modifies reg, reg.cache.Values, messager
    ensures reg.Valid()
    ensures completed <==> !BuildableFails(x)
    ensures reg.Decl() == BuildableD(old(reg.Decl()), x)
    ensures messager.messages == old(messager.messages) + ConstructorMessagesOf(x)
    ensures forall c | c in reg.cache.Values :: c in old(reg.cache.Values) || fresh(c)
  {
    var name := BuilderOf(x);
    var c := reg.GetRootForName(name);
    completed := BuildStored(reg, name, x, messager);
    SkeletonAfterRoot(old(reg.Decl()), x);
  }

  /** The skeleton is built on the class the registry stores under `name`, in place. */
  method BuildStored(reg: ClazzBuilder, name: string, x: Member, messager: Messager) returns (completed: bool)
    requires reg.Valid() && name in reg.cache
    modifies reg.cache[name], messager
    ensures reg.Valid() && reg.cache == old(reg.cache)
    ensures completed <==> !BuildableFails(x)
    ensures reg.Decl() == StoreSkeleton(old(reg.Decl()), name, x)
    ensures messager.messages == old(messager.messages) + ConstructorMessagesOf(x)
  {
    var c := reg.cache[name];
    completed := BuildSkeleton(c, x, messager);
    ClazzUpdated((reg, name, messager));
  }

  /** Lines 49-53 of handleAnnotation's loop on the builder class `c`. */
  method BuildSkeleton(c: Clazz, x: Member, messager: Messager) returns (completed: bool)
    requires c.Valid()
    modifies c, messager
    ensures c.Valid() && c.methods == old(c.methods) && c.key == old(c.key)
    ensures completed <==> !BuildableFails(x)
    ensures c.Decl() == SkeletonD(old(c.Decl()), x)
    ensures messager.messages == old(messager.messages) + ConstructorMessagesOf(x)
  {
    var q := GetElementNameQualified(x.element);
    c.SetPackageIdent(SubstringBeforeLast(q, '.'));
    c.AddVariable(q, BuildableObjectName, None, [PRIVATE]);
    completed := AddConstructorsToClass(c, x, messager);
  }

  /** handleAnnotation: every type annotated with @Buildable in turn; false when one threw. */
  method HandleAnnotation(reg: ClazzBuilder, members: seq<Member>, messager: Messager) returns (completed: bool)
    requires reg.Valid()
    modifies reg, reg.cache.Values, messager
    ensures reg.Valid() && reg.Decl() == SkeletonsD(old(reg.Decl()), members).reg
    ensures messager.messages == old(messager.messages) + SkeletonsD(old(reg.Decl()), members).messages
    ensures completed <==> !SkeletonsD(old(reg.Decl()), members).failed
  {
    ghost var r0, m0 := reg.Decl(), messager.messages;
    var i := 0;
    while i < |members|
      invariant 0 <= i <= |members| && reg.Valid()
      invariant !SkeletonsD(r0, members[..i]).failed
      invariant reg.Decl() == SkeletonsD(r0, members[..i]).reg
      invariant messager.messages == m0 + SkeletonsD(r0, members[..i]).messages
      invariant forall c | c in reg.cache.Values :: c in old(reg.cache.Values) || fresh(c)
    {
      ghost var before := messager.messages;
      var ok := HandleElement(reg, members[i], messager);
      SkeletonsStep(r0, m0, before, messager.messages, members, i);
      if !ok {
        SkeletonsFailedPrefix(r0, members, i);
        return false;
      }
      i := i + 1;
    }
    assert members[..|members|] == members;
    return true;
  }

}
