/** ElementUtils: names and type strings derived from host elements. */
module ElementUtils {

  import opened Wrappers
  import opened Strings
  import opened Host
  import opened BeelderConstants

  /** getElementNameQualified: the element's string form. */
  function GetElementNameQualified(e: Element): string {
    e.display
  }

  /** getElementNameSimple: the element's simple name. */
  function GetElementNameSimple(e: Element): string {
    e.simpleName
  }

  /** `s` holds "void" starting at index `i`. */
  predicate VoidAt(s: string, i: int) {
    0 <= i && i + 4 <= |s| && s[i..i + 4] == "void"
  }

  /**
   * replaceAll("\\(|\\)|void", ""): a left-to-right scan that drops every '(' and ')'
   * and every "void" found at the scan position.
   */
  function StripParensAndVoid(s: string): (r: string)
    ensures |r| <= |s|
    ensures '(' !in r && ')' !in r
  {
    if s == [] then []
    else if s[0] == '(' || s[0] == ')' then StripParensAndVoid(s[1..])
    else if VoidAt(s, 0) then StripParensAndVoid(s[4..])
    else [s[0]] + StripParensAndVoid(s[1..])
  }

  /** Dropping the first character shifts every "void" position down by one. */
  lemma VoidAtTail(s: string, i: nat)
    requires s != []
    ensures VoidAt(s[1..], i) <==> VoidAt(s, i + 1)
  {
    if i + 5 <= |s| {
      assert s[1..][i..i + 4] == s[i + 1..i + 5];
    }
  }

  /** A type string without parentheses and without "void" is left as it is. */
  lemma StripKeepsCleanType(s: string)
    requires '(' !in s && ')' !in s
    requires forall i :: 0 <= i < |s| ==> !VoidAt(s, i)
    ensures StripParensAndVoid(s) == s
  {
    assert s + [] == s;
    StripAppend(s, []);
  }

  /** No "void" can start inside `a` and reach past it when `b` begins with ')'. */
  lemma NoVoidAcrossParen(a: string, b: string)
    requires forall i :: 0 <= i < |a| ==> !VoidAt(a, i)
    requires b != [] && b[0] == ')'
    ensures forall i :: 0 <= i < |a| ==> !VoidAt(a + b, i)
  {
    forall i | 0 <= i < |a|
      ensures !VoidAt(a + b, i)
    {
      var t := a + b;
      if i + 4 <= |a| {
        assert t[i..i + 4] == a[i..i + 4];
        assert !VoidAt(a, i);
      } else if i + 4 <= |t| {
        assert t[i..i + 4][|a| - i] == t[|a|] == ')';
      }
    }
  }

  /**
   * The type string of a constructor or other non-method executable, "(" + args + ")void",
   * loses everything but the argument types.
   */
  lemma StripExecutableType(args: string)
    requires '(' !in args && ')' !in args
    requires forall i :: 0 <= i < |args| ==> !VoidAt(args, i)
    ensures StripParensAndVoid("(" + args + ")void") == args
  {
    var tail := ")void";
    assert "(" + args + ")void" == "(" + (args + tail);
    StripLeadingParen(args + tail);
    NoVoidAcrossParen(args, tail);
    StripAppend(args, tail);
    StripCloseVoid();
    assert args + [] == args;
  }

  /** A leading '(' is dropped. */
  lemma StripLeadingParen(t: string)
    ensures StripParensAndVoid("(" + t) == StripParensAndVoid(t)
  {
    assert ("(" + t)[1..] == t;
  }

  /** ")void" is dropped entirely. */
  lemma StripCloseVoid()
    ensures StripParensAndVoid(")void") == []
  {
    assert ")void"[1..] == "void";
    assert VoidAt("void", 0);
    assert "void"[4..] == [];
  }

  /** Scanning a clean prefix and then the rest is the same as scanning the whole. */
  lemma {:induction false} StripAppend(a: string, b: string)
    requires '(' !in a && ')' !in a
    requires forall i :: 0 <= i < |a| ==> !VoidAt(a + b, i)
    ensures StripParensAndVoid(a + b) == a + StripParensAndVoid(b)
  {
    if a != [] {
      assert (a + b)[0] == a[0];
      assert !VoidAt(a + b, 0);
      assert (a + b)[1..] == a[1..] + b;
      forall i | 0 <= i < |a[1..]|
        ensures !VoidAt(a[1..] + b, i)
      {
        VoidAtTail(a + b, i);
      }
      StripAppend(a[1..], b);
    } else {
      assert a + b == b;
    }
  }

  /**
   * replaceAll("\\(.*\\)", "") on a line of text: the greedy match runs from the
   * first '(' to the last ')', and is removed when that ')' comes after the '('.
   */
  function StripParameterList(s: string): (r: string)
    ensures '(' !in s ==> r == s
    ensures |r| <= |s|
  {
    match FirstIndexOf(s, '(')
    case None => s
    case Some(i) =>
      match LastIndexOf(s, ')')
      case Some(j) =>
        if i < j then s[..i] + s[j + 1..] else s
      case None => s
  }

  /** A method type "(P)R" whose return type R holds no ')' yields exactly R. */
  lemma {:induction false} StripParameterListGivesReturnType(params: string, ret: string)
    requires ')' !in ret
    ensures StripParameterList("(" + params + ")" + ret) == ret
  {
    var s := "(" + params + ")" + ret;
    var k := |params| + 1;
    assert s[0] == '(';
    assert s[k] == ')';
    assert s[k + 1..] == ret;
    var fi := FirstIndexOf(s, '(');
    assert fi == Some(0);
    var li := LastIndexOf(s, ')');
    assert li.Some?;
    assert li.value == k;
  }

  /** The type string holds no parenthesis and no "void". */
  predicate CleanType(s: string) {
    '(' !in s && ')' !in s && forall i :: 0 <= i < |s| ==> !VoidAt(s, i)
  }

  /**
   * getElementType: the type of a field or parameter, or a method's return type. For an
   * element that is not a method no parenthesis is left and a clean type is kept as it
   * is; a method type without parameter list is kept as it is.
   */
  function GetElementType(e: Element): (r: string)
    ensures e.kind != METHOD ==> '(' !in r && ')' !in r
    ensures e.kind != METHOD && CleanType(e.typeString) ==> r == e.typeString
    ensures e.kind == METHOD && '(' !in e.typeString ==> r == e.typeString
  {
    if e.kind != METHOD then
      if CleanType(e.typeString) then StripKeepsCleanType(e.typeString); StripParensAndVoid(e.typeString)
      else StripParensAndVoid(e.typeString)
    else StripParameterList(e.typeString)
  }

  /** A method typed "(P)R", with no ')' in its return type R, has type R. */
  lemma MethodElementType(e: Element, params: string, ret: string)
    requires e.kind == METHOD && e.typeString == "(" + params + ")" + ret && ')' !in ret
    ensures GetElementType(e) == ret
  {
    StripParameterListGivesReturnType(params, ret);
  }

  /** A "void" at the scan position is deleted, and scanning goes on right after it. */
  lemma StripDropsVoid(a: string, b: string)
    requires '(' !in a && ')' !in a
    requires forall i :: 0 <= i < |a| ==> !VoidAt(a + "void" + b, i)
    ensures StripParensAndVoid(a + "void" + b) == a + StripParensAndVoid(b)
  {
    var t := "void" + b;
    assert a + "void" + b == a + t;
    StripAppend(a, t);
    assert VoidAt(t, 0) && t[0] != '(' && t[0] != ')' by {
      assert t[0..4] == "void";
    }
    assert t[4..] == b;
  }

  /**
   * getBuilderNameFor: the simple name of the element, or of its enclosing element
   * when it is not a class, followed by "Builder". Members always have an enclosing
   * class, so a non-class element comes with one.
   */
  function GetBuilderNameFor(e: Element, enclosing: Option<Element>): (r: string)
    requires e.kind == CLASS || enclosing.Some?
    ensures EndsWith(r, BuildableClassSuffix)
    ensures e.kind == CLASS ==> StartsWith(r, e.simpleName) && |r| == |e.simpleName| + |BuildableClassSuffix|
    ensures e.kind != CLASS ==> StartsWith(r, enclosing.value.simpleName) && |r| == |enclosing.value.simpleName| + |BuildableClassSuffix|
  {
    if e.kind != CLASS then enclosing.value.simpleName + BuildableClassSuffix
    else e.simpleName + BuildableClassSuffix
  }

  /** The builder name of a member is the builder name of its class. */
  lemma MemberSharesBuilderName(member: Element, cls: Element, clsEnclosing: Option<Element>)
    requires member.kind != CLASS && cls.kind == CLASS
    ensures GetBuilderNameFor(member, Some(cls)) == GetBuilderNameFor(cls, clsEnclosing)
  {
  }

  /** Dropping the suffix from a builder name gives back the class's simple name. */
  lemma BuilderNameRoundTrip(cls: Element, clsEnclosing: Option<Element>)
    requires cls.kind == CLASS
    ensures var r := GetBuilderNameFor(cls, clsEnclosing);
            r[..|r| - |BuildableClassSuffix|] == cls.simpleName
  {
  }

  /** getSetterMethod (and setterMethodFrom): "set" followed by the capitalized simple name. */
  function SetterMethodName(e: Element): (r: string)
    ensures StartsWith(r, "set") && |r| == 3 + |e.simpleName|
    ensures e.simpleName != [] ==> r[3] == UpperChar(e.simpleName[0]) && r[4..] == e.simpleName[1..]
  {
    "set" + Capitalize(e.simpleName)
  }

  /** ElementUtils.asMethod: executable elements (methods and constructors) only. */
  predicate IsExecutable(e: Element) {
    e.kind == METHOD || e.kind == CONSTRUCTOR
  }
}
