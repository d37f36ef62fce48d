/**
 * NonNullHandler: for each member annotated with @NonNull, a null guard at the head of the
 * builder method that the member contributes (the setter of a field, the invoker of a
 * method). The guard tests every parameter of non-primitive type and, when one is null,
 * returns, throws, prints or logs as the annotation's operation says.
 */
module NonNullHandlers {

  import opened Wrappers
  import opened Strings
  import opened Host
  import opened BeelderConstants
  import opened BeelderUtils
  import opened ElementUtils
  import opened Types
  import opened Variables
  import opened Methods
  import opened Statements
  import opened Clazzes
  import opened Registry
  import BuildableHandlers
  import BuildingBlockHandlers

  /** The ending of the diagnostic for a member without @BuildingBlock. */
  const NotBuildingBlock := "but not with @Buildable"

  /** The exit line of the guards that do not throw. */
  const ReturnThis := "return this;"

  /** The logger field LOG_EXC adds to the builder. */
  const LoggerType := "org.slf4j.Logger"
  const LoggerName := "LOG"

  /** The builder method a member's guard goes into: a field's setter, or the method's own name. */
  function GuardedMethodName(e: Element): string {
    if e.kind == FIELD then SetterMethodName(e) else GetElementNameSimple(e)
  }

  /** One disjunct of the guard's condition. */
  function NullCheck(k: string): string {
    "java.util.Objects.isNull(" + k + ")"
  }

  /** A parameter that can hold null: its type is not in the primitive set. */
  predicate IsReference(v: VariableDecl) {
    v.typ !in PrimitiveTypes
  }

  /** The null checks of the given keys, in order. */
  function NullChecks(ks: seq<string>): (r: seq<string>)
    ensures |r| == |ks| && forall i :: 0 <= i < |ks| ==> r[i] == NullCheck(ks[i])
  {
    seq(|ks|, i requires 0 <= i < |ks| => NullCheck(ks[i]))
  }

  /** The guard's condition over the method's parameters: filter, map, joining(" || "). */
  function Condition(ps: seq<VariableDecl>): string {
    Join(NullChecks(Keys(Filter(IsReference, ps))), " || ")
  }

  /** The message printed by PRINT_TO_ERR ("err") and PRINT_TO_STDOUT ("out"). */
  function PrintLine(stream: string, message: string): string {
    "System." + stream + ".println(\"" + message + "\");"
  }

  /** The line LOG_EXC logs with. */
  function LogLine(message: string): string {
    "LOG.error(\"" + message + "\");"
  }

  /** The logger field: private static final, created for the builder class `builderKey`. */
  function LoggerVar(builderKey: string): VariableDecl {
    VariableDecl(LoggerType, LoggerName, Some("org.slf4j.LoggerFactory.getLogger(" + builderKey + ".class)"),
                 WithModifiers([], [PRIVATE, STATIC, FINAL]))
  }

  /**
   * The guarded lines for each operation. Every guard leaves the builder method: its last
   * line returns the builder, except THROW_EXC, whose one line throws.
   */
  function GuardLines(a: NonNullAnnotation): (r: seq<string>)
    ensures r != []
    ensures a.operation == THROW_EXC <==> r == [CreateExceptionThrowing("IllegalArgumentException", a.message)]
    ensures a.operation != THROW_EXC ==> r[|r| - 1] == ReturnThis
  {
    match a.operation
    case NO_OP => [ReturnThis]
    case THROW_EXC => [CreateExceptionThrowing("IllegalArgumentException", a.message)]
    case PRINT_TO_ERR => [PrintLine("err", a.message), ReturnThis]
    case PRINT_TO_STDOUT => [PrintLine("out", a.message), ReturnThis]
    case LOG_EXC => [LogLine(a.message), ReturnThis]
  }

  /** The guard as prepended: the if block over `cond`, rendered at depth 2. */
  function GuardText(cond: string, a: NonNullAnnotation): string {
    RenderIf(IfDecl(cond, GuardLines(a)), 2)
  }

  /** The guard is prepended to the method's body. */
  function PrependD(md: MethodDecl, line: string): MethodDecl {
    md.(content := [line] + md.content)
  }

  /**
   * handleAnnotatedElement on the builder class `d`: the method is fetched (and created when
   * missing); without a nullable parameter nothing more happens; otherwise LOG_EXC adds the
   * logger and the guard is prepended.
   */
  function NullGuardD(d: ClazzDecl, e: Element, a: NonNullAnnotation): ClazzDecl {
    var k := GuardedMethodName(e);
    var d1 := FetchMethodD(d, k);
    var cond := Condition(d1.methods[k].parameters);
    if cond == [] then d1
    else
      var d2 := if a.operation == LOG_EXC then AddVariableD(d1, LoggerVar(d1.key)) else d1;
      WithMethodD(d2, k, PrependD(d2.methods[k], GuardText(cond, a)))
  }

  /** The builder a member's guard is written into. */
  function GuardBuilder(x: Member): string {
    GetBuilderNameFor(x.element, Some(x.enclosing))
  }

  /** handleAnnotatedElement on the registry. */
  function GuardElementD(r: RegistryDecl, x: Member): (r': RegistryDecl)
    requires x.element.nonNull.Some?
    ensures r'.Keys == r.Keys + {GuardBuilder(x)}
    ensures forall n | n in r && n != GuardBuilder(x) :: r'[n] == r[n]
  {
    var name := GuardBuilder(x);
    var r1 := WithRoot(r, name);
    r1[name := NullGuardD(r1[name], x.element, x.element.nonNull.value)]
  }

  /** checkAnnotatedField's diagnostic. */
  function GuardMessage(e: Element): seq<Diagnostic> {
    if e.buildingBlock then []
    else [Diagnostic(ERROR, MessageText(e.kind, e.display, NonNullSimpleName, NotBuildingBlock))]
  }

  /** Every member annotated with @NonNull carries the annotation. */
  predicate AllAnnotated(xs: seq<Member>) {
    forall x | x in xs :: x.element.nonNull.Some?
  }

  /** handleAnnotation on the registry: the members in turn. */
  function GuardsD(r: RegistryDecl, xs: seq<Member>): (r': RegistryDecl)
    requires AllAnnotated(xs)
    ensures r.Keys <= r'.Keys
  {
    if xs == [] then r
    else GuardElementD(GuardsD(r, xs[..|xs| - 1]), xs[|xs| - 1])
  }

  /** handleAnnotation's diagnostics. */
  function GuardMessages(xs: seq<Member>): seq<Diagnostic> {
    if xs == [] then []
    else GuardMessages(xs[..|xs| - 1]) + GuardMessage(xs[|xs| - 1].element)
  }

  // ---------------------------------------------------------------------------------------
  // What the handler promises

  /** Different keys give different checks. */
  lemma NullCheckInjective(a: string, b: string)
    requires NullCheck(a) == NullCheck(b)
    ensures a == b
  {
    var p := "java.util.Objects.isNull(";
    assert a == NullCheck(a)[|p|..|p| + |a|];
    assert b == NullCheck(b)[|p|..|p| + |b|];
  }

  /** Joining parts that are all non-empty gives "" exactly when there are no parts. */
  lemma JoinEmpty(parts: seq<string>, sep: string)
    requires forall i | 0 <= i < |parts| :: parts[i] != []
    ensures Join(parts, sep) == [] <==> parts == []
  {
    if |parts| > 1 {
      assert |Join(parts, sep)| >= |parts[0]|;
    }
  }

  /**
   * The condition tests exactly the non-primitive parameters: it checks a key if and only
   * if a parameter of non-primitive type carries it.
   */
  lemma ConditionParts(ps: seq<VariableDecl>)
    ensures forall k :: NullCheck(k) in NullChecks(Keys(Filter(IsReference, ps)))
                        <==> exists v | v in ps :: IsReference(v) && v.key == k
  {
    var fs := Filter(IsReference, ps);
    FilterMembers(IsReference, ps);
    forall k
      ensures NullCheck(k) in NullChecks(Keys(fs)) <==> exists v | v in ps :: IsReference(v) && v.key == k
    {
      if NullCheck(k) in NullChecks(Keys(fs)) {
        var i :| 0 <= i < |fs| && NullChecks(Keys(fs))[i] == NullCheck(k);
        NullCheckInjective(fs[i].key, k);
        assert fs[i] in fs;
      }
      if exists v | v in ps :: IsReference(v) && v.key == k {
        var v :| v in ps && IsReference(v) && v.key == k;
        assert v in fs;
        var i :| 0 <= i < |fs| && fs[i] == v;
        assert NullChecks(Keys(fs))[i] == NullCheck(k);
      }
    }
  }

  /** The condition is empty exactly when every parameter is of a primitive type. */
  lemma ConditionEmpty(ps: seq<VariableDecl>)
    ensures Condition(ps) == [] <==> forall v | v in ps :: v.typ in PrimitiveTypes
  {
    var fs := Filter(IsReference, ps);
    FilterMembers(IsReference, ps);
    JoinEmpty(NullChecks(Keys(fs)), " || ");
    if fs != [] {
      assert fs[0] in fs;
    }
  }

  /** The primitive set lacks "long": a long parameter is tested against null. */
  lemma LongIsTested(k: string)
    ensures Condition([VariableDecl("long", k, None, [])]) == NullCheck(k)
  {
    var ps := [VariableDecl("long", k, None, [])];
    assert "long" !in PrimitiveTypes;
    assert Filter(IsReference, ps) == ps;
  }

  /**
   * The guard goes before the method's existing lines, which follow unchanged; nothing else
   * of the method changes, no other method changes, and only LOG_EXC touches the variables,
   * adding the logger unless one named LOG is present. Without a nullable parameter the
   * method is only fetched.
   */
  lemma GuardPrepended(d: ClazzDecl, e: Element, a: NonNullAnnotation)
    requires WellFormed(d)
    ensures var k := GuardedMethodName(e);
            var d1 := FetchMethodD(d, k);
            var r := NullGuardD(d, e, a);
            WellFormed(r) && k in r.methods && r.key == d.key
            && (forall k' :: k' in d.methods && k' != k ==> r.methods[k'] == d.methods[k'])
            && r.methods[k].parameters == d1.methods[k].parameters
    ensures var k := GuardedMethodName(e);
            var d1 := FetchMethodD(d, k);
            var cond := Condition(d1.methods[k].parameters);
            var r := NullGuardD(d, e, a);
            cond != [] ==>
              r.methods[k].content == [GuardText(cond, a)] + d1.methods[k].content
              && r.methods[k].(content := d1.methods[k].content) == d1.methods[k]
              && r.variables == (if a.operation == LOG_EXC then AddVariableD(d1, LoggerVar(d.key)).variables
                                 else d.variables)
    ensures var k := GuardedMethodName(e);
            var d1 := FetchMethodD(d, k);
            Condition(d1.methods[k].parameters) == [] ==> NullGuardD(d, e, a) == d1
  {
    var k := GuardedMethodName(e);
    FetchMethodKeepsOthers(d, k);
    var d1 := FetchMethodD(d, k);
    var cond := Condition(d1.methods[k].parameters);
    if cond != [] {
      var d2 := if a.operation == LOG_EXC then AddVariableD(d1, LoggerVar(d1.key)) else d1;
      assert d2.methods == d1.methods && d2.methodOrder == d1.methodOrder;
      assert WithMethodD(d2, k, PrependD(d2.methods[k], GuardText(cond, a))).methods.Keys == d1.methods.Keys;
    }
  }

  /**
   * A guard on a method the builder does not have yet finds no parameter: the method is
   * created empty and no guard is written.
   */
  lemma GuardOnMissingMethod(d: ClazzDecl, e: Element, a: NonNullAnnotation)
    requires GuardedMethodName(e) !in d.methods
    ensures NullGuardD(d, e, a) == FetchMethodD(d, GuardedMethodName(e))
    ensures NullGuardD(d, e, a).methods[GuardedMethodName(e)] == NewMethodDecl(GuardedMethodName(e))
  {
    assert Filter(IsReference, []) == [];
  }

  /**
   * LOG_EXC adds the logger at most once: with distinct variable keys before, keys stay
   * distinct and a logger is present after the guard.
   */
  lemma LoggerAddedOnce(d: ClazzDecl, e: Element, a: NonNullAnnotation)
    requires WellFormed(d) && DistinctKeys(d.variables)
    ensures DistinctKeys(NullGuardD(d, e, a).variables)
    ensures var k := GuardedMethodName(e);
            var cond := Condition(FetchMethodD(d, k).methods[k].parameters);
            a.operation == LOG_EXC && cond != [] ==> HasVariable(NullGuardD(d, e, a).variables, LoggerName)
  {
    var k := GuardedMethodName(e);
    GuardPrepended(d, e, a);
    if a.operation == LOG_EXC {
      AddVariableKeepsKeysDistinct(FetchMethodD(d, k), LoggerVar(d.key));
    }
  }

  /** A second guard on the same method goes before the first. */
  lemma GuardTwice(d: ClazzDecl, e: Element, a: NonNullAnnotation, b: NonNullAnnotation)
    requires WellFormed(d)
    ensures var k := GuardedMethodName(e);
            var d1 := FetchMethodD(d, k);
            var cond := Condition(d1.methods[k].parameters);
            cond != [] ==>
              NullGuardD(NullGuardD(d, e, a), e, b).methods[k].content
              == [GuardText(cond, b), GuardText(cond, a)] + d1.methods[k].content
  {
    var k := GuardedMethodName(e);
    GuardPrepended(d, e, a);
    var r := NullGuardD(d, e, a);
    GuardPrepended(r, e, b);
    assert FetchMethodD(r, k) == r;
  }

  /**
   * A member without @BuildingBlock gets an ERROR, and its guard is generated all the same,
   * exactly as for a member that has it.
   */
  lemma GuardWithoutBuildingBlock(r: RegistryDecl, x: Member)
    requires x.element.nonNull.Some? && !x.element.buildingBlock
    ensures var y := Member(x.element.(buildingBlock := true), x.enclosing);
            GuardElementD(r, x) == GuardElementD(r, y) && GuardMessage(y.element) == []
    ensures GuardMessage(x.element) == [Diagnostic(ERROR, MessageText(x.element.kind, x.element.display,
                                                                     NonNullSimpleName, NotBuildingBlock))]
  {
    var y := Member(x.element.(buildingBlock := true), x.enclosing);
    assert GuardBuilder(x) == GuardBuilder(y);
    var r1 := WithRoot(r, GuardBuilder(x));
    SameGuard(r1[GuardBuilder(x)], x.element, y.element, x.element.nonNull.value);
  }

  /** The guard depends on the member only through the name of the method it guards. */
  lemma SameGuard(d: ClazzDecl, e1: Element, e2: Element, a: NonNullAnnotation)
    requires GuardedMethodName(e1) == GuardedMethodName(e2)
    ensures NullGuardD(d, e1, a) == NullGuardD(d, e2, a)
  {
  }

  /**
   * The diagnostics are all ERRORs, at most one per member, whatever the registry, and there
   * are none exactly when every member carries @BuildingBlock.
   */
  lemma {:induction false} GuardMessagesErrors(xs: seq<Member>)
    ensures |GuardMessages(xs)| <= |xs|
    ensures forall d | d in GuardMessages(xs) :: d.kind == ERROR
    ensures GuardMessages(xs) == [] <==> forall x | x in xs :: x.element.buildingBlock
  {
    if xs != [] {
      var n := |xs| - 1;
      GuardMessagesErrors(xs[..n]);
      assert xs == xs[..n] + [xs[n]];
    }
  }

  /** A guard keeps a well-formed registry well formed and adds at most the member's builder. */
  lemma GuardElementWellFormed(r: RegistryDecl, x: Member)
    requires x.element.nonNull.Some? && RegistryWellFormed(r)
    ensures RegistryWellFormed(GuardElementD(r, x))
    ensures GuardElementD(r, x).Keys == r.Keys + {GuardBuilder(x)}
  {
    var name := GuardBuilder(x);
    BuildingBlockHandlers.WithRootWellFormed(r, name);
    GuardPrepended(WithRoot(r, name)[name], x.element, x.element.nonNull.value);
  }

  /**
   * handleAnnotation keeps a well-formed registry well formed, and afterwards the builders
   * are those before together with the builder of every member.
   */
  lemma {:induction false} GuardsWellFormed(r: RegistryDecl, xs: seq<Member>)
    requires AllAnnotated(xs) && RegistryWellFormed(r)
    ensures RegistryWellFormed(GuardsD(r, xs))
    ensures GuardsD(r, xs).Keys == r.Keys + set x | x in xs :: GuardBuilder(x)
  {
    if xs != [] {
      var n := |xs| - 1;
      assert AllAnnotated(xs[..n]);
      GuardsWellFormed(r, xs[..n]);
      GuardElementWellFormed(GuardsD(r, xs[..n]), xs[n]);
      BuildersSnoc(xs);
    }
  }

  /** The builders of the members, one member more. */
  lemma BuildersSnoc(xs: seq<Member>)
    requires xs != []
    ensures (set x | x in xs :: GuardBuilder(x))
         == (set x | x in xs[..|xs| - 1] :: GuardBuilder(x)) + {GuardBuilder(xs[|xs| - 1])}
  {
    assert xs == xs[..|xs| - 1] + [xs[|xs| - 1]];
  }

  /** One more member, in registry and diagnostics. */
  lemma GuardStep(r: RegistryDecl, m0: seq<Diagnostic>, m1: seq<Diagnostic>, m2: seq<Diagnostic>,
                  xs: seq<Member>, i: nat)
    requires i < |xs| && AllAnnotated(xs)
    requires m1 == m0 + GuardMessages(xs[..i]) && m2 == m1 + GuardMessage(xs[i].element)
    ensures AllAnnotated(xs[..i]) && AllAnnotated(xs[..i + 1])
    ensures GuardsD(r, xs[..i + 1]) == GuardElementD(GuardsD(r, xs[..i]), xs[i])
    ensures m2 == m0 + GuardMessages(xs[..i + 1])
  {
    assert xs[..i + 1][..i] == xs[..i];
    assert xs[i] in xs;
    BuildableHandlers.AppendAssoc(m0, GuardMessages(xs[..i]), GuardMessage(xs[i].element));
  }

  // ---------------------------------------------------------------------------------------
  // The handler on objects

  class NonNullHandler {

    constructor ()
    {
    }

    /** handleAnnotation: for every annotated member, the check and then the guard. */
    method HandleAnnotation(reg: ClazzBuilder, members: seq<Member>, messager: Messager)
      requires reg.Valid() && AllAnnotated(members)
      modifies reg.Repr(), messager
      ensures reg.Valid()
      ensures reg.Decl() == GuardsD(old(reg.Decl()), members)
      ensures messager.messages == old(messager.messages) + GuardMessages(members)
    {
      ghost var r0, m0 := reg.Decl(), messager.messages;
      var i := 0;
      while i < |members|
        invariant 0 <= i <= |members| && reg.Valid() && AllAnnotated(members[..i])
        invariant reg.Decl() == GuardsD(r0, members[..i])
        invariant messager.messages == m0 + GuardMessages(members[..i])
        invariant forall o | o in reg.Repr() :: o in old(reg.Repr()) || fresh(o)
      {
        ghost var before := messager.messages;
        HandleMember(reg, members[i], messager);
        GuardStep(r0, m0, before, messager.messages, members, i);
        i := i + 1;
      }
      assert members[..|members|] == members;
    }

    /** The action applied to each member: the check, then the guard. */
    method HandleMember(reg: ClazzBuilder, x: Member, messager: Messager)
      requires reg.Valid() && x.element.nonNull.Some?
      modifies reg.Repr(), messager
      ensures reg.Valid()
      ensures forall o | o in reg.Repr() :: o in old(reg.Repr()) || fresh(o)
      ensures reg.Decl() == GuardElementD(old(reg.Decl()), x)
      ensures messager.messages == old(messager.messages) + GuardMessage(x.element)
    {
      MessagerOutside(reg, messager);
      CheckAnnotatedField(x.element, messager);
      RegistryUnchanged(reg);
      HandleAnnotatedElement(reg, x);
    }

    /** checkAnnotatedField: an ERROR for a member without @BuildingBlock. */
    method CheckAnnotatedField(element: Element, messager: Messager)
      modifies messager
      ensures messager.messages == old(messager.messages) + GuardMessage(element)
    {
      if !element.buildingBlock {
        MessageElementAnnotatedWith(messager, ERROR, NonNullSimpleName, NotBuildingBlock, element);
      }
    }

    /** handleAnnotatedElement: the builder is fetched from the registry and given the guard. */
    method HandleAnnotatedElement(reg: ClazzBuilder, x: Member)
      requires reg.Valid() && x.element.nonNull.Some?
      modifies reg.Repr()
      ensures reg.Valid()
      ensures forall o | o in reg.Repr() :: o in old(reg.Repr()) || fresh(o)
      ensures reg.Decl() == GuardElementD(old(reg.Decl()), x)
    {
      ReprCovers(reg);
      var name := GetBuilderNameFor(x.element, Some(x.enclosing));
      var clazz := reg.GetRootForName(name);
      GuardStored(reg, name, x.element, x.element.nonNull.value);
    }

    /** The guard on the class stored under `name`. */
    method GuardStored(reg: ClazzBuilder, name: string, e: Element, a: NonNullAnnotation)
      requires reg.Valid() && name in reg.cache
      modifies reg.cache[name], reg.cache[name].methods.Values
      ensures reg.Valid()
      ensures forall o | o in reg.Repr() :: o in old(reg.Repr()) || fresh(o)
      ensures reg.Decl() == old(reg.Decl())[name := NullGuardD(old(reg.Decl())[name], e, a)]
    {
      var c := reg.cache[name];
      AddGuard(c, e, a);
      ClazzUpdated((reg, name, null));
      GrownByClazz((reg, name));
    }

    /** Lines 54-89 on the builder class `c`. */
    method AddGuard(c: Clazz, e: Element, a: NonNullAnnotation)
      requires c.Valid()
      modifies c, c.methods.Values
      ensures c.Valid() && c.key == old(c.key)
      ensures c.Decl() == NullGuardD(old(c.Decl()), e, a)
      ensures forall m | m in c.methods.Values :: m in old(c.methods.Values) || fresh(m)
    {
      var k := GuardedMethodName(e);
      var theSetter := c.FetchMethod(k);
      var condition := Condition(theSetter.GetParameters());
      if condition == [] {
        return;
      }
      var text := BuildGuard(c, condition, a);
      label Guarded:
      theSetter.PrependLine(text);
      MethodUpdatedValid@Guarded((c, k));
      MethodUpdated@Guarded((c, k));
    }

    /** Lines 68-87: the if block for the operation, rendered; LOG_EXC also adds the logger to `c`. */
    method BuildGuard(c: Clazz, condition: string, a: NonNullAnnotation) returns (text: string)
      requires c.Valid()
      modifies c
      ensures c.Valid() && c.key == old(c.key) && c.methods == old(c.methods)
      ensures c.Decl() == if a.operation == LOG_EXC then AddVariableD(old(c.Decl()), LoggerVar(old(c.key)))
                          else old(c.Decl())
      ensures text == GuardText(condition, a)
    {
      var ifBlock := new IfBlock(condition);
      FillGuard(c, ifBlock, a);
      text := ifBlock.Build(2);
    }

    /** Lines 71-87: the operation's lines go into the empty if block `ifBlock`. */
    method FillGuard(c: Clazz, ifBlock: IfBlock, a: NonNullAnnotation)
      requires c.Valid() && ifBlock.lines == []
      modifies c, ifBlock
      ensures c.Valid() && c.key == old(c.key) && c.methods == old(c.methods)
      ensures c.Decl() == if a.operation == LOG_EXC then AddVariableD(old(c.Decl()), LoggerVar(old(c.key)))
                          else old(c.Decl())
      ensures ifBlock.lines == GuardLines(a)
    {
      match a.operation {
        case NO_OP =>
          HandleNoOp(ifBlock);
          ClazzKept(c);
        case THROW_EXC =>
          HandleThrowException(ifBlock, a.message);
          ClazzKept(c);
        case PRINT_TO_ERR =>
          HandlePrintTo(ifBlock, "err", a.message);
          ClazzKept(c);
        case PRINT_TO_STDOUT =>
          HandlePrintTo(ifBlock, "out", a.message);
          ClazzKept(c);
        case LOG_EXC =>
          HandleLogException(c, ifBlock, a.message);
      }
    }

    method HandleNoOp(theIf: IfBlock)
      modifies theIf
      ensures theIf.Decl() == old(theIf.Decl()).(lines := old(theIf.lines) + [ReturnThis])
    {
      theIf.AddLine(ReturnThis);
    }

    method HandleThrowException(theIf: IfBlock, message: string)
      modifies theIf
      ensures theIf.Decl() == old(theIf.Decl()).(lines := old(theIf.lines)
                                                 + [CreateExceptionThrowing("IllegalArgumentException", message)])
    {
      theIf.AddLine(CreateExceptionThrowing("IllegalArgumentException", message));
    }

    method HandlePrintTo(theIf: IfBlock, stream: string, message: string)
      modifies theIf
      ensures theIf.Decl() == old(theIf.Decl()).(lines := old(theIf.lines) + [PrintLine(stream, message), ReturnThis])
    {
      theIf.AddLine(PrintLine(stream, message));
      theIf.AddLine(ReturnThis);
    }

    /** The logger is added to the builder (unless one is present) and the guard logs. */
    method HandleLogException(builder: Clazz, theIf: IfBlock, message: string)
      requires builder.Valid()
      modifies builder, theIf
      ensures builder.Valid() && builder.key == old(builder.key) && builder.methods == old(builder.methods)
      ensures builder.Decl() == AddVariableD(old(builder.Decl()), LoggerVar(old(builder.key)))
      ensures theIf.Decl() == old(theIf.Decl()).(lines := old(theIf.lines) + [LogLine(message), ReturnThis])
    {
      var loggerCreation := "org.slf4j.LoggerFactory.getLogger(" + builder.key + ".class)";
      var logVar := new Variable.WithValue(LoggerType, LoggerName, Some(loggerCreation));
      logVar.AddModifiers([PRIVATE, STATIC, FINAL]);
      assert logVar.Decl() == LoggerVar(builder.key);
      theIf.AddLine(LogLine(message));
      theIf.AddLine(ReturnThis);
      ClazzKept(builder);
      builder.AddVariableObject(logVar);
    }
  }
}
