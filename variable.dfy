/** Variable: a typed, named, optionally initialised variable of a generated class or method. */
module Variables {

  import opened Wrappers
  import opened Strings
  import opened Host
  import opened StringBuilderUtils
  import opened Types
  import opened ElementUtils
  import opened BeelderConstants

  /** The state of one Variable object. */
  datatype VariableDecl = VariableDecl(typ: string, key: string, value: Option<string>, modifiers: seq<Modifier>)

  /**
   * Variable.build(depth): `depth` tabs, each modifier in lower case followed by a space,
   * the type, a space, the key, and " = " with the value when there is one. The text
   * starts with the indentation and ends with the key when there is no value, or with
   * " = " and the value when there is one.
   */
  function RenderVariable(d: VariableDecl, depth: nat): (r: string)
    ensures StartsWith(r, Tabs(depth))
    ensures d.value.None? ==> EndsWith(r, " " + d.key)
    ensures d.value.Some? ==> EndsWith(r, " = " + d.value.value)
  {
    var mid := RenderModifiers(d.modifiers) + d.typ;
    ConcatEnds(Tabs(depth), mid + ValueTail(d));
    ConcatEnds(mid, ValueTail(d));
    if d.value.Some? then
      ConcatEnds(" " + d.key, " = " + d.value.value);
      EndsWithConcat(mid, ValueTail(d), " = " + d.value.value);
      EndsWithConcat(Tabs(depth), mid + ValueTail(d), " = " + d.value.value);
      Tabs(depth) + (mid + ValueTail(d))
    else
      EndsWithConcat(Tabs(depth), mid + ValueTail(d), " " + d.key);
      Tabs(depth) + (mid + ValueTail(d))
  }

  /** The end of a variable's rendering: " key", then " = value" when there is a value. */
  function ValueTail(d: VariableDecl): string {
    match d.value
    case None => " " + d.key
    case Some(v) => " " + d.key + (" = " + v)
  }

  /** Without modifiers and value a variable renders as "<type> <key>". */
  lemma RenderPlainVariable(typ: string, key: string)
    ensures RenderVariable(VariableDecl(typ, key, None, []), 0) == typ + " " + key
  {
  }

  /** The name of the parameter at position `i`: "param" followed by the number. */
  function ParamName(i: nat): string {
    SetterMethodParamName + NatToString(i)
  }

  /** The names of the first `n` positional parameters: param0 .. param(n-1). */
  function ParamNames(n: nat): (r: seq<string>)
    ensures |r| == n && forall i :: 0 <= i < n ==> r[i] == ParamName(i)
  {
    seq(n, i requires 0 <= i < n => ParamName(i))
  }

  /** Parameters at different positions get different names. */
  lemma ParamNameInjective(i: nat, j: nat)
    requires ParamName(i) == ParamName(j)
    ensures i == j
  {
    assert NatToString(i) == ParamName(i)[|SetterMethodParamName|..] == NatToString(j);
    NatToStringInjective(i, j);
  }

  /**
   * The parameters Variable.from makes of parameter elements `ps` when each is renamed
   * after the number of parameters its method already has, starting with `from`.
   */
  function RenamedParameters(ps: seq<Element>, from: nat): (r: seq<VariableDecl>)
    ensures |r| == |ps|
    ensures forall i :: 0 <= i < |ps| ==>
              r[i] == VariableDecl(GetElementType(ps[i]), ParamName(from + i), ps[i].constantValue, [])
  {
    seq(|ps|, i requires 0 <= i < |ps| =>
      VariableDecl(GetElementType(ps[i]), ParamName(from + i), ps[i].constantValue, []))
  }

  /** One more parameter renamed: the next one, named after its position. */
  lemma RenamedParametersSnoc(pre: seq<VariableDecl>, ps: seq<Element>, i: nat, from: nat)
    requires i < |ps|
    ensures pre + RenamedParameters(ps[..i + 1], from)
         == pre + RenamedParameters(ps[..i], from)
            + [VariableDecl(GetElementType(ps[i]), ParamName(from + i), ps[i].constantValue, [])]
  {
    assert RenamedParameters(ps[..i + 1], from)
        == RenamedParameters(ps[..i], from)
           + [VariableDecl(GetElementType(ps[i]), ParamName(from + i), ps[i].constantValue, [])];
  }

  /** The keys of a sequence of variables, in order. */
  function Keys(vs: seq<VariableDecl>): (r: seq<string>)
    ensures |r| == |vs| && forall i :: 0 <= i < |vs| ==> r[i] == vs[i].key
  {
    seq(|vs|, i requires 0 <= i < |vs| => vs[i].key)
  }

  /** Renamed parameters carry pairwise different names. */
  lemma RenamedParametersDistinct(ps: seq<Element>, from: nat)
    ensures NoDuplicates(Keys(RenamedParameters(ps, from)))
  {
    var ks := Keys(RenamedParameters(ps, from));
    forall i, j | 0 <= i < j < |ks|
      ensures ks[i] != ks[j]
    {
      if ks[i] == ks[j] {
        ParamNameInjective(from + i, from + j);
      }
    }
  }

  class Variable {
    /** The variable's type; it never changes after construction. */
    const typ: string
    /** The initial value, absent for none. */
    const value: Option<string>
    var key: string
    var modifiers: seq<Modifier>

    /** Variable(type, key): no value, no modifiers. */
    constructor (typ: string, key: string)
      ensures this.typ == typ && this.key == key && this.value == None && this.modifiers == []
    {
      this.typ := typ;
      this.key := key;
      this.value := None;
      this.modifiers := [];
    }

    /** Variable(type, key, value), where a null value is None. */
    constructor WithValue(typ: string, key: string, value: Option<string>)
      ensures this.typ == typ && this.key == key && this.value == value && this.modifiers == []
    {
      this.typ := typ;
      this.key := key;
      this.value := value;
      this.modifiers := [];
    }

    function Decl(): VariableDecl
      reads this
    {
      VariableDecl(typ, key, value, modifiers)
    }

    /** Type.setKey. */
    method SetKey(key: string)
      modifies this
      ensures Decl() == old(Decl()).(key := key)
    {
      this.key := key;
    }

    /** Type.addModifiers: appends, in argument order, the modifiers not yet present. */
    method AddModifiers(ms: seq<Modifier>)
      modifies this
      ensures Decl() == old(Decl()).(modifiers := WithModifiers(old(modifiers), ms))
    {
      var i := 0;
      while i < |ms|
        invariant 0 <= i <= |ms|
        invariant modifiers == WithModifiers(old(modifiers), ms[..i])
        invariant key == old(key)
      {
        assert ms[..i + 1][..i] == ms[..i];
        if ms[i] !in modifiers {
          modifiers := modifiers + [ms[i]];
        }
        i := i + 1;
      }
      assert ms[..|ms|] == ms;
    }

    /** Variable.build(depth); build() is Build(), the default depth 0. */
    function Build(depth: nat := 0): string
      reads this
    {
      RenderVariable(Decl(), depth)
    }
  }

  /**
   * Variable.from(element): a variable with the element's type and string form, and its
   * constant value when it has one.
   */
  method From(element: Element) returns (v: Variable)
    ensures fresh(v)
    ensures v.Decl() == VariableDecl(GetElementType(element), GetElementNameQualified(element), element.constantValue, [])
  {
    if element.constantValue.Some? {
      v := new Variable.WithValue(GetElementType(element), GetElementNameQualified(element), element.constantValue);
    } else {
      v := new Variable(GetElementType(element), GetElementNameQualified(element));
    }
  }

  /** The Decl snapshots of a sequence of variables, in order. */
  function Decls(vs: seq<Variable>): (r: seq<VariableDecl>)
    reads vs
    ensures |r| == |vs|
    ensures forall i :: 0 <= i < |vs| ==> r[i] == vs[i].Decl()
  {
    if vs == [] then [] else [vs[0].Decl()] + Decls(vs[1..])
  }
}
