/** Method: a method (or constructor bridge) of a generated class. */
module Methods {

  import opened Wrappers
  import opened Strings
  import opened Host
  import opened StringBuilderUtils
  import opened Types
  import opened Variables

  /**
   * The state of one Method object. The parameters are a HashSet of Variable objects in
   * the source; here they are kept in insertion order, and nothing proved depends on it.
   */
  datatype MethodDecl = MethodDecl(key: string, modifiers: seq<Modifier>, parameters: seq<VariableDecl>,
                                   content: seq<string>, returnType: string)

  /** A new Method(key): return type "void", no modifiers, no parameters, empty body. */
  function NewMethodDecl(key: string): MethodDecl {
    MethodDecl(key, [], [], [], "void")
  }

  /** Each line at `depth` tabs followed by a line break, in order. */
  function RenderLines(lines: seq<string>, depth: nat): (r: string)
    ensures lines == [] ==> r == ""
  {
    if lines == [] then ""
    else RenderLines(lines[..|lines| - 1], depth) + Tabs(depth) + lines[|lines| - 1] + "\n"
  }

  /** The lines of a concatenation render as the two renderings one after the other. */
  lemma {:induction false} RenderLinesConcat(a: seq<string>, b: seq<string>, depth: nat)
    ensures RenderLines(a + b, depth) == RenderLines(a, depth) + RenderLines(b, depth)
  {
    if b == [] {
      assert a + b == a;
    } else {
      var init := b[..|b| - 1];
      assert (a + b)[..|a + b| - 1] == a + init;
      RenderLinesConcat(a, init, depth);
    }
  }

  /** The parameters, each rendered at depth 0. */
  function RenderParameters(ps: seq<VariableDecl>): (r: seq<string>)
    ensures |r| == |ps|
    ensures forall i :: 0 <= i < |ps| ==> r[i] == RenderVariable(ps[i], 0)
  {
    seq(|ps|, i requires 0 <= i < |ps| => RenderVariable(ps[i], 0))
  }

  /**
   * createMethodHeader: indentation, modifiers, return type, key and the parameter list;
   * the header opens with the indentation, modifiers, return type and name, and ends with
   * the parameters joined by ", " and the opening of the body.
   */
  function MethodHeader(d: MethodDecl, depth: nat): (r: string)
    ensures StartsWith(r, Tabs(depth) + RenderModifiers(d.modifiers) + d.returnType + " " + d.key + "(")
    ensures EndsWith(r, Join(RenderParameters(d.parameters), ", ") + ") {\n")
  {
    ConcatThree(Tabs(depth) + RenderModifiers(d.modifiers) + d.returnType + " " + d.key + "(",
                Join(RenderParameters(d.parameters), ", "), ") {\n");
    Tabs(depth) + RenderModifiers(d.modifiers) + d.returnType + " " + d.key
      + "(" + Join(RenderParameters(d.parameters), ", ") + ") {\n"
  }

  /**
   * Method.build(depth): the header, each body line one level deeper, and the closing
   * brace at the method's own depth.
   */
  function RenderMethod(d: MethodDecl, depth: nat): (r: string)
    ensures StartsWith(r, MethodHeader(d, depth))
    ensures EndsWith(r, Tabs(depth) + "}")
  {
    ConcatFour(MethodHeader(d, depth), RenderLines(d.content, depth + 1), Tabs(depth), "}");
    MethodHeader(d, depth) + RenderLines(d.content, depth + 1) + Tabs(depth) + "}"
  }

  /** Every line occurs in the rendering at its indentation, followed by a line break. */
  lemma {:induction false} RenderLinesHas(lines: seq<string>, depth: nat, i: nat)
    requires i < |lines|
    ensures Occurs(RenderLines(lines, depth), Tabs(depth) + lines[i] + "\n")
  {
    var init := lines[..|lines| - 1];
    var last := Tabs(depth) + lines[|lines| - 1] + "\n";
    var pre := RenderLines(init, depth);
    if i == |lines| - 1 {
      assert RenderLines(lines, depth) == pre + last + "";
      OccursWhole(last);
      OccursWithin(pre, last, "", last);
    } else {
      RenderLinesHas(init, depth, i);
      assert init[i] == lines[i];
      assert RenderLines(lines, depth) == "" + pre + last;
      OccursWithin("", pre, last, Tabs(depth) + lines[i] + "\n");
    }
  }

  /** Every body line of a method occurs in its rendering, one level deeper than the method. */
  lemma RenderMethodHasLine(d: MethodDecl, depth: nat, i: nat)
    requires i < |d.content|
    ensures Occurs(RenderMethod(d, depth), Tabs(depth + 1) + d.content[i] + "\n")
  {
    var h := MethodHeader(d, depth);
    var body := RenderLines(d.content, depth + 1);
    RenderLinesHas(d.content, depth + 1, i);
    assert RenderMethod(d, depth) == h + body + (Tabs(depth) + "}");
    OccursWithin(h, body, Tabs(depth) + "}", Tabs(depth + 1) + d.content[i] + "\n");
  }

  /** A method without parameters has an empty parameter list "()". */
  lemma HeaderWithoutParameters(d: MethodDecl, depth: nat)
    requires d.parameters == []
    ensures MethodHeader(d, depth) == Tabs(depth) + RenderModifiers(d.modifiers) + d.returnType + " " + d.key + "() {\n"
  {
  }

  /** A new method renders as "void key() {\n}" at its depth. */
  lemma RenderNewMethod(key: string, depth: nat)
    ensures RenderMethod(NewMethodDecl(key), depth) == Tabs(depth) + "void " + key + "() {\n" + Tabs(depth) + "}"
  {
  }

  /** Appending a body line inserts exactly that line, indented, just before the closing brace. */
  lemma RenderAppendedLine(d: MethodDecl, depth: nat, line: string)
    ensures RenderMethod(d.(content := d.content + [line]), depth)
         == MethodHeader(d, depth) + RenderLines(d.content, depth + 1) + Tabs(depth + 1) + line + "\n" + Tabs(depth) + "}"
  {
    var d' := d.(content := d.content + [line]);
    assert d'.content[..|d'.content| - 1] == d.content;
    var h, rl := MethodHeader(d, depth), RenderLines(d.content, depth + 1);
    assert MethodHeader(d', depth) == h;
    assert RenderLines(d'.content, depth + 1) == rl + Tabs(depth + 1) + line + "\n";
    AppendedRegroup(h, rl, Tabs(depth + 1), line, Tabs(depth));
  }

  lemma AppendedRegroup(h: string, rl: string, t1: string, line: string, t: string)
    ensures h + (rl + t1 + line + "\n") + t + "}" == h + rl + t1 + line + "\n" + t + "}"
  {
  }

  /** A single line renders as its indentation, the line and a line break. */
  lemma RenderOneLine(line: string, depth: nat)
    ensures RenderLines([line], depth) == Tabs(depth) + line + "\n"
  {
    assert [line][..0] == [];
  }

  /** Prepending a body line puts its rendering right after the header and before every earlier line. */
  lemma RenderPrependedLine(d: MethodDecl, depth: nat, line: string)
    ensures RenderMethod(d.(content := [line] + d.content), depth)
         == MethodHeader(d, depth) + RenderLines([line], depth + 1) + RenderLines(d.content, depth + 1) + Tabs(depth) + "}"
  {
    RenderLinesConcat([line], d.content, depth + 1);
    var h := MethodHeader(d, depth);
    var a := RenderLines([line], depth + 1);
    var c := RenderLines(d.content, depth + 1);
    assert h + (a + c) == h + a + c;
  }

  class Method {
    var key: string
    var modifiers: seq<Modifier>
    /** The parameter objects, each at most once (the source keeps them in a HashSet). */
    var paramObjects: seq<Variable>
    /** The state of each parameter object, taken when it was added. */
    var parameters: seq<VariableDecl>
    /** The body, one entry per line. */
    var content: seq<string>
    var returnType: string
    /** The class that stores this method under its key, if any (proof bookkeeping only). */
    ghost const owner: object?

    /** Method(key): return type "void", no modifiers, no parameters and an empty body. */
    constructor (key: string, ghost owner: object?)
      ensures Valid() && fresh(this) && this.owner == owner
      ensures paramObjects == []
      ensures Decl() == NewMethodDecl(key)
    {
      this.key := key;
      this.owner := owner;
      modifiers := [];
      paramObjects := [];
      parameters := [];
      content := [];
      returnType := "void";
    }

    /** No parameter object and no modifier occurs twice; one state per parameter object. */
    ghost predicate Valid()
      reads this
    {
      NoDuplicates(paramObjects) && |paramObjects| == |parameters| && NoDuplicates(modifiers)
    }

    /** The parameter objects as a set. */
    ghost function ParameterSet(): set<Variable>
      reads this
    {
      set v | v in paramObjects
    }

    function Decl(): MethodDecl
      reads this
    {
      MethodDecl(key, modifiers, parameters, content, returnType)
    }

    /** Method.build(depth); build() is Build(), the default depth 0. */
    function Build(depth: nat := 0): (r: string)
      reads this
      ensures StartsWith(r, MethodHeader(Decl(), depth)) && EndsWith(r, Tabs(depth) + "}")
    {
      RenderMethod(Decl(), depth)
    }

    /** addLine: appends one body line and leaves the rest of the method as it was. */
    method AddLine(line: string)
      requires Valid()
      modifies this
      ensures Valid() && paramObjects == old(paramObjects)
      ensures Decl() == old(Decl()).(content := old(content) + [line])
    {
      content := content + [line];
    }

    /** prependLine: inserts one body line before all others. */
    method PrependLine(line: string)
      requires Valid()
      modifies this
      ensures Valid() && paramObjects == old(paramObjects)
      ensures Decl() == old(Decl()).(content := [line] + old(content))
    {
      content := [line] + content;
    }

    /** addReturnStatement(x): appends the line "return x;". */
    method AddReturnStatement(x: string)
      requires Valid()
      modifies this
      ensures Valid() && paramObjects == old(paramObjects)
      ensures Decl() == old(Decl()).(content := old(content) + ["return " + x + ";"])
    {
      AddLine("return " + x + ";");
    }

    /** setReturnType: replaces the return type. */
    method SetReturnType(returnType: string)
      requires Valid()
      modifies this
      ensures Valid() && paramObjects == old(paramObjects)
      ensures Decl() == old(Decl()).(returnType := returnType)
    {
      this.returnType := returnType;
    }

    /** Type.addModifier on a method: added when present and not yet there. */
    method AddModifier(m: Option<Modifier>)
      requires Valid()
      modifies this
      ensures Valid() && paramObjects == old(paramObjects)
      ensures Decl() == old(Decl()).(modifiers := WithModifier(old(modifiers), m))
    {
      modifiers := WithModifier(modifiers, m);
    }

    /**
     * addParameter: HashSet.add of a Variable, which has identity equality: the same
     * object is added only once, a new object always.
     */
    method AddParameter(v: Variable)
      requires Valid()
      modifies this
      ensures Valid()
      ensures ParameterSet() == old(ParameterSet()) + {v}
      ensures v in old(paramObjects) ==> paramObjects == old(paramObjects) && Decl() == old(Decl())
      ensures v !in old(paramObjects) ==>
                paramObjects == old(paramObjects) + [v]
                && Decl() == old(Decl()).(parameters := old(parameters) + [v.Decl()])
    {
      if v !in paramObjects {
        paramObjects := paramObjects + [v];
        parameters := parameters + [v.Decl()];
      }
    }

    /** parameterNum: the number of distinct parameter objects. */
    function ParameterNum(): (n: nat)
      requires Valid()
      reads this
      ensures n == |ParameterSet()| == |Decl().parameters|
    {
      DistinctCount(paramObjects);
      |paramObjects|
    }

    /** getParameters: the parameters, in the order they were added. */
    function GetParameters(): (r: seq<VariableDecl>)
      reads this
      ensures r == Decl().parameters
    {
      parameters
    }
  }

  /** The methods of a sequence, as a set. */
  function Elems(ms: seq<Method>): set<Method> {
    set m | m in ms
  }

  /** The Decl snapshots of a sequence of methods, in order. */
  function MethodDecls(ms: seq<Method>): (r: seq<MethodDecl>)
    reads ms
    ensures |r| == |ms|
    ensures forall i :: 0 <= i < |ms| ==> r[i] == ms[i].Decl()
  {
    if ms == [] then [] else [ms[0].Decl()] + MethodDecls(ms[1..])
  }

  /** The Decl snapshots of the methods of a map, under the same keys. */
  function MethodDeclMap(ms: map<string, Method>): (r: map<string, MethodDecl>)
    reads ms.Values
    ensures r.Keys == ms.Keys
    ensures forall k :: k in ms ==> r[k] == ms[k].Decl()
  {
    map k | k in ms :: ms[k].Decl()
  }

  /** The snapshots of methods none of which changed are the snapshots from before. */
  twostate lemma MethodDeclMapUnchanged(ms: map<string, Method>)
    requires forall m | m in ms.Values :: unchanged(m)
    ensures MethodDeclMap(ms) == old(MethodDeclMap(ms))
  {
  }

  /** When only the method under key `slot.1` changed, only its snapshot changes. */
  twostate lemma MethodDeclMapUpdated(slot: (map<string, Method>, string))
    requires slot.1 in slot.0
    requires forall k' | k' in slot.0 && k' != slot.1 :: unchanged(slot.0[k'])
    ensures MethodDeclMap(slot.0) == old(MethodDeclMap(slot.0))[slot.1 := slot.0[slot.1].Decl()]
  {
    var (ms, k) := slot;
    var r := MethodDeclMap(ms);
    var r0 := old(MethodDeclMap(ms))[k := ms[k].Decl()];
    forall k' | k' in ms && k' != k
      ensures r[k'] == r0[k']
    {
      assert r0[k'] == old(ms[k'].Decl());
    }
    assert r.Keys == r0.Keys;
  }

  /** The same for a sequence of methods. */
  twostate lemma MethodDeclsUnchanged(ms: seq<Method>)
    requires forall i | 0 <= i < |ms| :: unchanged(ms[i])
    ensures MethodDecls(ms) == old(MethodDecls(ms))
  {
  }

  /** Storing a method under a new key adds its snapshot under that key. */
  lemma MethodDeclMapInsert(ms: map<string, Method>, k: string, m: Method)
    requires k !in ms
    ensures MethodDeclMap(ms[k := m]) == MethodDeclMap(ms)[k := m.Decl()]
  {
    var r := MethodDeclMap(ms[k := m]);
    assert r.Keys == MethodDeclMap(ms)[k := m.Decl()].Keys;
  }

  /** The snapshots of a sequence with one more method end with that method's snapshot. */
  lemma MethodDeclsSnoc(ms: seq<Method>, m: Method)
    ensures MethodDecls(ms + [m]) == MethodDecls(ms) + [m.Decl()]
  {
    var r := MethodDecls(ms + [m]);
    forall i | 0 <= i < |r|
      ensures r[i] == (MethodDecls(ms) + [m.Decl()])[i]
    {
      if i < |ms| {
        assert (ms + [m])[i] == ms[i];
      }
    }
  }
}
