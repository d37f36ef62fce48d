/** Clazz: a generated class, holding variables, methods keyed by name, and constructors. */
module Clazzes {

  import opened Wrappers
  import opened Strings
  import opened Host
  import opened StringBuilderUtils
  import opened Types
  import opened Variables
  import opened Methods

  /**
   * The state of one Clazz object. Variables (a HashSet in the source) are kept in
   * insertion order, and methods (a HashMap) as a map plus the order in which their keys
   * were first fetched; nothing proved depends on either order.
   */
  datatype ClazzDecl = ClazzDecl(
    key: string,
    modifiers: seq<Modifier>,
    packageIdent: Option<string>,
    variables: seq<VariableDecl>,
    methods: map<string, MethodDecl>,
    methodOrder: seq<string>,
    constructors: seq<MethodDecl>)

  /** A new Clazz(key): no package (null), no modifiers, variables, methods or constructors. */
  function NewClazzDecl(key: string): ClazzDecl {
    ClazzDecl(key, [], None, [], map[], [], [])
  }

  /** `order` lists each key of `keys` exactly once and nothing else. */
  ghost predicate KeysListed(order: seq<string>, keys: set<string>) {
    NoDuplicates(order) && forall k :: k in order <==> k in keys
  }

  /** Listing a new key at the end keeps the listing exact. */
  lemma KeysListedAdd(order: seq<string>, keys: set<string>, k: string)
    requires KeysListed(order, keys) && k !in keys
    ensures KeysListed(order + [k], keys + {k})
  {
    var o := order + [k];
    forall i, j | 0 <= i < j < |o| ensures o[i] != o[j] {
      if j == |order| {
        assert o[i] == order[i];
      }
    }
  }

  /** The method keys are listed once each, and each stored method carries its own key. */
  ghost predicate WellFormed(d: ClazzDecl) {
    KeysListed(d.methodOrder, d.methods.Keys)
    && (forall k :: k in d.methods ==> d.methods[k].key == k)
  }

  /** Some variable is keyed `key`. */
  predicate HasVariable(vars: seq<VariableDecl>, key: string) {
    exists i :: 0 <= i < |vars| && vars[i].key == key
  }

  /** No two variables share a key. */
  predicate DistinctKeys(vars: seq<VariableDecl>) {
    forall i, j :: 0 <= i < j < |vars| ==> vars[i].key != vars[j].key
  }

  /**
   * addVariable: only the variables change; at most one is appended, exactly when no
   * variable had the key, and it is `v`.
   */
  function AddVariableD(d: ClazzDecl, v: VariableDecl): (r: ClazzDecl)
    ensures r.(variables := d.variables) == d
    ensures d.variables <= r.variables && |r.variables| <= |d.variables| + 1
    ensures |r.variables| > |d.variables| <==> !HasVariable(d.variables, v.key)
    ensures |r.variables| > |d.variables| ==> r.variables[|d.variables|] == v
  {
    if HasVariable(d.variables, v.key) then d else d.(variables := d.variables + [v])
  }

  /**
   * After addVariable exactly one variable carries the key when keys were distinct before,
   * keys stay distinct, and a second identical call changes nothing.
   */
  lemma AddVariableKeepsKeysDistinct(d: ClazzDecl, v: VariableDecl)
    requires DistinctKeys(d.variables)
    ensures var r := AddVariableD(d, v);
            DistinctKeys(r.variables) && HasVariable(r.variables, v.key)
            && AddVariableD(r, v) == r
  {
    var r := AddVariableD(d, v);
    if !HasVariable(d.variables, v.key) {
      assert r.variables[|d.variables|].key == v.key;
    }
  }

  /** getVariableFor on snapshots: the first variable keyed `name`, or None (null). */
  function VariableFor(vars: seq<VariableDecl>, name: string): (r: Option<VariableDecl>)
    ensures r.None? <==> !HasVariable(vars, name)
    ensures r.Some? ==> r.value in vars && r.value.key == name
  {
    if vars == [] then None
    else if vars[0].key == name then Some(vars[0])
    else VariableFor(vars[1..], name)
  }

  /** The variable at `i` is the one found when no variable before it carries the key. */
  lemma {:induction false} VariableForAt(vars: seq<VariableDecl>, name: string, i: nat)
    requires i < |vars| && vars[i].key == name
    requires forall j :: 0 <= j < i ==> vars[j].key != name
    ensures VariableFor(vars, name) == Some(vars[i])
  {
    if i > 0 {
      VariableForAt(vars[1..], name, i - 1);
    }
  }

  /**
   * fetchMethod: afterwards a method is stored under `k`; stored methods are kept as they
   * are, a missing one is a new empty method, it is listed after the earlier ones, and
   * nothing else about the class changes.
   */
  function FetchMethodD(d: ClazzDecl, k: string): (r: ClazzDecl)
    ensures r.methods.Keys == d.methods.Keys + {k}
    ensures forall j | j in d.methods :: r.methods[j] == d.methods[j]
    ensures k !in d.methods ==> r.methods[k] == NewMethodDecl(k)
    ensures d.methodOrder <= r.methodOrder
    ensures r.(methods := d.methods, methodOrder := d.methodOrder) == d
  {
    if k in d.methods then d
    else d.(methods := d.methods[k := NewMethodDecl(k)], methodOrder := d.methodOrder + [k])
  }

  /**
   * fetchMethod keeps the class well formed, the method under `k` is keyed `k`, and it is
   * idempotent: fetching the same key twice stores a single method.
   */
  lemma FetchMethodKeepsOthers(d: ClazzDecl, k: string)
    requires WellFormed(d)
    ensures var r := FetchMethodD(d, k);
            WellFormed(r) && r.methods[k].key == k && FetchMethodD(r, k) == r
  {
    if k !in d.methods {
      KeysListedAdd(d.methodOrder, d.methods.Keys, k);
      assert FetchMethodD(d, k).methods.Keys == d.methods.Keys + {k};
    }
  }

  /** The methods listed in `order`, looked up in `methods`. */
  function MethodsInOrder(methods: map<string, MethodDecl>, order: seq<string>): (r: seq<MethodDecl>)
    requires forall k :: k in order ==> k in methods
    ensures |r| == |order|
    ensures forall i :: 0 <= i < |order| ==> r[i] == methods[order[i]]
  {
    if order == [] then [] else [methods[order[0]]] + MethodsInOrder(methods, order[1..])
  }

  /** buildCollection: each text followed by the suffix and `depth` tabs. */
  function RenderMembers(texts: seq<string>, suffix: string, depth: nat): (r: string)
    ensures texts == [] ==> r == ""
  {
    if texts == [] then "" else texts[0] + suffix + Tabs(depth) + RenderMembers(texts[1..], suffix, depth)
  }

  function VariableTexts(vs: seq<VariableDecl>, depth: nat): (r: seq<string>)
    ensures |r| == |vs| && forall i :: 0 <= i < |vs| ==> r[i] == RenderVariable(vs[i], depth)
  {
    if vs == [] then [] else [RenderVariable(vs[0], depth)] + VariableTexts(vs[1..], depth)
  }

  function MethodTexts(ms: seq<MethodDecl>, depth: nat): (r: seq<string>)
    ensures |r| == |ms| && forall i :: 0 <= i < |ms| ==> r[i] == RenderMethod(ms[i], depth)
  {
    if ms == [] then [] else [RenderMethod(ms[0], depth)] + MethodTexts(ms[1..], depth)
  }

  /** StringBuilder.append of a possibly null String: null is appended as "null". */
  function PackageText(p: Option<string>): string {
    match p
    case None => "null"
    case Some(s) => s
  }

  /** createPackageLine and createClazzHeader. */
  function ClazzHead(d: ClazzDecl, depth: nat): string {
    Tabs(depth) + "package " + PackageText(d.packageIdent) + ";\n"
      + "\n"
      + Tabs(depth) + RenderModifiers(d.modifiers) + "class " + d.key + " {\n\n"
  }

  /**
   * Clazz.build(depth): the package line, a blank line, the class header, each variable at
   * depth+1 with ";\n", a line break, each constructor and then each method at depth+1
   * with "\n\n", each member followed by `depth` tabs, and the closing brace.
   */
  function RenderClazz(d: ClazzDecl, depth: nat): string
    requires forall k :: k in d.methodOrder ==> k in d.methods
  {
    ClazzHead(d, depth)
      + RenderMembers(VariableTexts(d.variables, depth + 1), ";\n", depth)
      + "\n"
      + RenderMembers(MethodTexts(d.constructors, depth + 1), "\n\n", depth)
      + RenderMembers(MethodTexts(MethodsInOrder(d.methods, d.methodOrder), depth + 1), "\n\n", depth)
      + "}"
  }

  /** A new class with no package set renders the package as "null". */
  lemma RenderNewClazz(key: string)
    ensures RenderClazz(NewClazzDecl(key), 0) == "package null;\n\nclass " + key + " {\n\n\n}"
  {
  }

  /** Every text of buildCollection occurs in its result, followed by the suffix and the tabs. */
  lemma {:induction false} RenderMembersHas(texts: seq<string>, suffix: string, depth: nat, k: nat)
    requires k < |texts|
    ensures Occurs(RenderMembers(texts, suffix, depth), texts[k] + suffix + Tabs(depth))
  {
    var first := texts[0] + suffix + Tabs(depth);
    var rest := RenderMembers(texts[1..], suffix, depth);
    assert RenderMembers(texts, suffix, depth) == "" + first + rest;
    if k == 0 {
      OccursWhole(first);
      OccursWithin("", first, rest, first);
    } else {
      RenderMembersHas(texts[1..], suffix, depth, k - 1);
      assert RenderMembers(texts, suffix, depth) == first + rest + "";
      OccursWithin(first, rest, "", texts[k] + suffix + Tabs(depth));
    }
  }

  /** Clazz.build regrouped: the head, the variables, the members after them, and "}". */
  lemma ClazzParts(d: ClazzDecl, depth: nat)
    requires forall k :: k in d.methodOrder ==> k in d.methods
    ensures var h := ClazzHead(d, depth);
            var v := RenderMembers(VariableTexts(d.variables, depth + 1), ";\n", depth);
            var c := RenderMembers(MethodTexts(d.constructors, depth + 1), "\n\n", depth);
            var m := RenderMembers(MethodTexts(MethodsInOrder(d.methods, d.methodOrder), depth + 1), "\n\n", depth);
            RenderClazz(d, depth) == h + v + ("\n" + c + m + "}")
            && RenderClazz(d, depth) == (h + v + "\n") + c + (m + "}")
            && RenderClazz(d, depth) == (h + v + "\n" + c) + m + "}"
            && RenderClazz(d, depth) == h + (v + "\n" + c + m + "}")
  {
    var h := ClazzHead(d, depth);
    var v := RenderMembers(VariableTexts(d.variables, depth + 1), ";\n", depth);
    var c := RenderMembers(MethodTexts(d.constructors, depth + 1), "\n\n", depth);
    var m := RenderMembers(MethodTexts(MethodsInOrder(d.methods, d.methodOrder), depth + 1), "\n\n", depth);
    Regroup(h, v, "\n", c, m, "}");
  }

  /** The four ways ClazzParts groups six strings. */
  lemma Regroup(h: string, v: string, n: string, c: string, m: string, e: string)
    ensures h + v + n + c + m + e == h + v + (n + c + m + e)
    ensures h + v + n + c + m + e == (h + v + n) + c + (m + e)
    ensures h + v + n + c + m + e == (h + v + n + c) + m + e
    ensures h + v + n + c + m + e == h + (v + n + c + m + e)
  {
  }

  /** The rendered class opens with its package line and header and closes with "}". */
  lemma RenderClazzShape(d: ClazzDecl, depth: nat)
    requires forall k :: k in d.methodOrder ==> k in d.methods
    ensures StartsWith(RenderClazz(d, depth), ClazzHead(d, depth))
    ensures EndsWith(RenderClazz(d, depth), "}")
  {
    ClazzParts(d, depth);
    var h := ClazzHead(d, depth);
    var v := RenderMembers(VariableTexts(d.variables, depth + 1), ";\n", depth);
    var c := RenderMembers(MethodTexts(d.constructors, depth + 1), "\n\n", depth);
    var m := RenderMembers(MethodTexts(MethodsInOrder(d.methods, d.methodOrder), depth + 1), "\n\n", depth);
    ConcatEnds(h, v + "\n" + c + m + "}");
    ConcatEnds(h + v + "\n" + c + m, "}");
  }

  /** Every variable of the class is rendered one level deeper, followed by ";\n" and the tabs. */
  lemma RenderClazzHasVariable(d: ClazzDecl, depth: nat, i: nat)
    requires forall k :: k in d.methodOrder ==> k in d.methods
    requires i < |d.variables|
    ensures Occurs(RenderClazz(d, depth), RenderVariable(d.variables[i], depth + 1) + ";\n" + Tabs(depth))
  {
    ClazzParts(d, depth);
    var texts := VariableTexts(d.variables, depth + 1);
    var c := RenderMembers(MethodTexts(d.constructors, depth + 1), "\n\n", depth);
    var m := RenderMembers(MethodTexts(MethodsInOrder(d.methods, d.methodOrder), depth + 1), "\n\n", depth);
    RenderMembersHas(texts, ";\n", depth, i);
    OccursWithin(ClazzHead(d, depth), RenderMembers(texts, ";\n", depth), "\n" + c + m + "}", texts[i] + ";\n" + Tabs(depth));
  }

  /** Every constructor of the class is rendered one level deeper, followed by "\n\n" and the tabs. */
  lemma RenderClazzHasConstructor(d: ClazzDecl, depth: nat, i: nat)
    requires forall k :: k in d.methodOrder ==> k in d.methods
    requires i < |d.constructors|
    ensures Occurs(RenderClazz(d, depth), RenderMethod(d.constructors[i], depth + 1) + "\n\n" + Tabs(depth))
  {
    ClazzParts(d, depth);
    var texts := MethodTexts(d.constructors, depth + 1);
    var v := RenderMembers(VariableTexts(d.variables, depth + 1), ";\n", depth);
    var m := RenderMembers(MethodTexts(MethodsInOrder(d.methods, d.methodOrder), depth + 1), "\n\n", depth);
    RenderMembersHas(texts, "\n\n", depth, i);
    OccursWithin(ClazzHead(d, depth) + v + "\n", RenderMembers(texts, "\n\n", depth), m + "}", texts[i] + "\n\n" + Tabs(depth));
  }

  /** Every stored method is rendered one level deeper, followed by "\n\n" and the tabs. */
  lemma RenderClazzHasMethod(d: ClazzDecl, depth: nat, k: string)
    requires WellFormed(d) && k in d.methods
    ensures Occurs(RenderClazz(d, depth), RenderMethod(d.methods[k], depth + 1) + "\n\n" + Tabs(depth))
  {
    ClazzParts(d, depth);
    var j :| 0 <= j < |d.methodOrder| && d.methodOrder[j] == k;
    var texts := MethodTexts(MethodsInOrder(d.methods, d.methodOrder), depth + 1);
    assert texts[j] == RenderMethod(d.methods[k], depth + 1);
    var v := RenderMembers(VariableTexts(d.variables, depth + 1), ";\n", depth);
    var c := RenderMembers(MethodTexts(d.constructors, depth + 1), "\n\n", depth);
    RenderMembersHas(texts, "\n\n", depth, j);
    OccursWithin(ClazzHead(d, depth) + v + "\n" + c, RenderMembers(texts, "\n\n", depth), "}", texts[j] + "\n\n" + Tabs(depth));
  }

  /** Storing a value under a new key adds exactly that value to the map's values. */
  lemma MapValuesInsert<K, V>(mp: map<K, V>, k: K, v: V)
    requires k !in mp
    ensures mp[k := v].Values == mp.Values + {v}
  {
    var r := mp[k := v];
    forall o | o in r.Values ensures o in mp.Values + {v} {
      var k' :| k' in r && r[k'] == o;
    }
    forall o | o in mp.Values ensures o in r.Values {
      var k' :| k' in mp && mp[k'] == o;
      assert r[k'] == o;
    }
    assert r[k] == v;
  }

  /** The invariant of a Clazz over its keyed methods. */
  ghost predicate MethodsValid(order: seq<string>, methods: map<string, Method>, owner: object)
    reads methods.Values
  {
    KeysListed(order, methods.Keys)
    && forall k :: k in methods ==> methods[k].key == k && methods[k].owner == owner && methods[k].Valid()
  }

  /** Storing a valid new method of the same owner under its own key keeps the invariant. */
  lemma MethodsValidStore(order: seq<string>, methods: map<string, Method>, owner: object, m: Method)
    requires MethodsValid(order, methods, owner)
    requires m.Valid() && m.key !in methods && m.owner == owner
    ensures MethodsValid(order + [m.key], methods[m.key := m], owner)
  {
    KeysListedAdd(order, methods.Keys, m.key);
    assert methods[m.key := m].Keys == methods.Keys + {m.key};
  }

  /**
   * A Clazz in place, with the Method objects it holds under their keys. Variables and
   * constructors are kept as their state when they were added: no Variable, and no Method
   * added as a constructor, is changed after it has been added to a class.
   */
  class Clazz {
    var key: string
    var modifiers: seq<Modifier>
    /** Null until setPackageIdent. */
    var packageIdent: Option<string>
    var variables: seq<VariableDecl>
    var methods: map<string, Method>
    var methodOrder: seq<string>
    var constructors: seq<MethodDecl>

    /**
     * Method keys are listed once each in methodOrder, and each stored method carries its
     * key, belongs to this class and is itself valid.
     */
    ghost predicate Valid()
      reads this, methods.Values
    {
      MethodsValid(methodOrder, methods, this)
    }

    function Decl(): ClazzDecl
      reads this, methods.Values
    {
      ClazzDecl(key, modifiers, packageIdent, variables, MethodDeclMap(methods), methodOrder, constructors)
    }

    /** Clazz(key): an empty class with the given name. */
    constructor (key: string)
      ensures Valid() && fresh(this) && methods == map[]
      ensures Decl() == NewClazzDecl(key)
    {
      this.key := key;
      modifiers := [];
      packageIdent := None;
      variables := [];
      methods := map[];
      methodOrder := [];
      constructors := [];
    }

    /** The snapshot is well formed whenever the objects are. */
    lemma DeclWellFormed()
      requires Valid()
      ensures WellFormed(Decl())
    {
    }

    /** Clazz.build(depth); build() is Build(), the default depth 0. */
    function Build(depth: nat := 0): (r: string)
      requires Valid()
      reads this, methods.Values
      ensures StartsWith(r, ClazzHead(Decl(), depth)) && EndsWith(r, "}")
    {
      RenderClazzShape(Decl(), depth);
      RenderClazz(Decl(), depth)
    }

    /** setPackageIdent. */
    method SetPackageIdent(packageIdent: string)
      requires Valid()
      modifies this
      ensures Valid() && methods == old(methods)
      ensures Decl() == old(Decl()).(packageIdent := Some(packageIdent))
    {
      this.packageIdent := Some(packageIdent);
      MethodDeclMapUnchanged(methods);
    }

    /** addConstructor: appends, with no check for duplicates. */
    method AddConstructor(m: Method)
      requires Valid()
      modifies this
      ensures Valid() && methods == old(methods)
      ensures Decl() == old(Decl()).(constructors := old(constructors) + [m.Decl()])
    {
      constructors := constructors + [m.Decl()];
      MethodDeclMapUnchanged(methods);
    }

    /** containsMethod. */
    predicate ContainsMethod(k: string)
      reads this
    {
      k in methods
    }

    /**
     * fetchMethod (HashMap.computeIfAbsent): the stored method for `k`, or a new Method(k)
     * stored under `k`.
     */
    method FetchMethod(k: string) returns (m: Method)
      requires Valid()
      modifies this
      ensures Valid() && ContainsMethod(k) && m == methods[k]
      ensures Decl() == FetchMethodD(old(Decl()), k)
      ensures k in old(methods) ==> m == old(methods[k]) && methods == old(methods)
      ensures k !in old(methods) ==> fresh(m) && methods == old(methods)[k := m]
      ensures forall x | x in methods.Values :: x in old(methods.Values) || fresh(x)
    {
      if k in methods {
        m := methods[k];
      } else {
        m := new Method(k, this);
        StoreMethod(m);
        MapValuesInsert(old(methods), k, m);
      }
    }

    /** The insertion half of computeIfAbsent: `m` is stored under its own key. */
    method StoreMethod(m: Method)
      requires Valid() && m.Valid() && m.key !in methods && m.owner == this
      modifies this
      ensures Valid() && methods == old(methods)[m.key := m] && methodOrder == old(methodOrder) + [m.key]
      ensures MethodDeclMap(methods) == old(MethodDeclMap(methods))[m.key := m.Decl()]
      ensures key == old(key) && modifiers == old(modifiers) && packageIdent == old(packageIdent)
      ensures variables == old(variables) && constructors == old(constructors)
    {
      ghost var before := methods;
      MethodsValidStore(methodOrder, methods, this, m);
      methods := methods[m.key := m];
      methodOrder := methodOrder + [m.key];
      MethodDeclMapUnchanged(before);
      MethodDeclMapInsert(before, m.key, m);
    }

    /** The anyMatch of addVariable: is some variable keyed `k`? */
    method AnyVariableKeyed(k: string) returns (found: bool)
      ensures found <==> HasVariable(variables, k)
    {
      found := false;
      var i := 0;
      while i < |variables|
        invariant 0 <= i <= |variables|
        invariant found <==> exists j :: 0 <= j < i && variables[j].key == k
      {
        if variables[i].key == k {
          found := true;
        }
        i := i + 1;
      }
    }

    /** getVariableFor: the first variable keyed `name`, or None (null) when there is none. */
    method GetVariableFor(name: string) returns (r: Option<VariableDecl>)
      ensures r == VariableFor(variables, name)
    {
      r := None;
      var i := 0;
      while i < |variables|
        invariant 0 <= i <= |variables|
        invariant r.None? ==> forall j :: 0 <= j < i ==> variables[j].key != name
        invariant r.Some? ==> r == VariableFor(variables, name)
      {
        if r.None? && variables[i].key == name {
          VariableForAt(variables, name, i);
          r := Some(variables[i]);
        }
        i := i + 1;
      }
      if r.None? {
        assert !HasVariable(variables, name);
      }
    }

    /**
     * addVariable(type, key, value, modifiers...): a new Variable with the modifiers, added
     * unless a variable with that key is present.
     */
    method AddVariable(typ: string, k: string, value: Option<string>, mods: seq<Modifier>)
      requires Valid()
      modifies this
      ensures Valid() && methods == old(methods)
      ensures Decl() == AddVariableD(old(Decl()), VariableDecl(typ, k, value, WithModifiers([], mods)))
    {
      var present := AnyVariableKeyed(k);
      if present {
        return;
      }
      // new Variable(type, key, value) followed by addModifiers(modifiers)
      variables := variables + [VariableDecl(typ, k, value, WithModifiers([], mods))];
      MethodDeclMapUnchanged(methods);
    }

    /** addVariable(variable): adds the variable unless one with its key is present. */
    method AddVariableObject(v: Variable)
      requires Valid()
      modifies this
      ensures Valid() && methods == old(methods)
      ensures Decl() == AddVariableD(old(Decl()), v.Decl())
    {
      var present := AnyVariableKeyed(v.key);
      if present {
        return;
      }
      variables := variables + [v.Decl()];
      MethodDeclMapUnchanged(methods);
    }

    /** getVariables: the variables, in the order they were added. */
    function GetVariables(): (r: seq<VariableDecl>)
      reads this
      ensures r == Decl().variables
    {
      variables
    }
  }

  /** The class with `md` stored under `k` in place of the method there. */
  function WithMethodD(d: ClazzDecl, k: string, md: MethodDecl): (r: ClazzDecl)
    requires k in d.methods
    ensures r.methods.Keys == d.methods.Keys && r.methods[k] == md
    ensures forall k' :: k' in d.methods && k' != k ==> r.methods[k'] == d.methods[k']
    ensures r.(methods := d.methods) == d
  {
    d.(methods := d.methods[k := md])
  }

  /**
   * When only the method stored under key `slot.1` of class `slot.0` changed (in place,
   * keeping its key and its validity), the class stays valid and keeps its methods.
   */
  twostate lemma MethodUpdatedValid(slot: (Clazz, string))
    requires old(slot.0.Valid()) && slot.1 in old(slot.0.methods)
    requires unchanged(slot.0)
    requires forall m | m in old(slot.0.methods.Values) && m != old(slot.0.methods[slot.1]) :: unchanged(m)
    requires old(slot.0.methods[slot.1]).Valid() && old(slot.0.methods[slot.1]).key == slot.1
    ensures slot.0.Valid()
  {
    var (c, k) := slot;
    forall k' | k' in c.methods && k' != k
      ensures c.methods[k'].Valid() && c.methods[k'].key == k'
    {
      assert c.methods[k'] in old(c.methods.Values);
    }
  }

  /** Under the same condition the class's snapshot differs only in that method. */
  twostate lemma MethodUpdated(slot: (Clazz, string))
    requires old(slot.0.Valid()) && slot.1 in old(slot.0.methods)
    requires unchanged(slot.0)
    requires forall m | m in old(slot.0.methods.Values) && m != old(slot.0.methods[slot.1]) :: unchanged(m)
    ensures slot.0.Decl() == WithMethodD(old(slot.0.Decl()), slot.1, slot.0.methods[slot.1].Decl())
  {
    var (c, k) := slot;
    assert c.methods == old(c.methods);
    forall k' | k' in c.methods && k' != k
      ensures unchanged(c.methods[k'])
    {
      assert c.methods[k'] in old(c.methods.Values);
    }
    MethodDeclMapUpdated((c.methods, k));
  }
}
