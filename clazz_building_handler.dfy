/**
 * ClazzBuildingHandler: run once, after the other handlers, it gives every stored class its
 * build method and returns each class's source text.
 */
module ClazzBuildingHandlers {

  import opened Wrappers
  import opened Host
  import opened BeelderConstants
  import opened Types
  import opened Variables
  import opened Methods
  import opened Clazzes
  import opened Registry

  /** The line the build method returns the instance with: "return object;". */
  const ReturnObjectLine := "return " + BuildableObjectName + ";"

  /**
   * addBuildMethodTo on snapshots: the method "build" is fetched (created when missing);
   * when the class has a variable keyed "object", the build method gets its type as
   * return type, the PUBLIC modifier and the line "return object;".
   */
  function AddBuildMethodD(d: ClazzDecl): (r: ClazzDecl)
    ensures BuildMethodName in r.methods
    ensures r.key == d.key && r.variables == d.variables && r.constructors == d.constructors
  {
    var d1 := FetchMethodD(d, BuildMethodName);
    match VariableFor(d.variables, BuildableObjectName)
    case None => d1
    case Some(v) =>
      var m := d1.methods[BuildMethodName];
      WithMethodD(d1, BuildMethodName, m.(returnType := v.typ,
                         modifiers := WithModifier(m.modifiers, Some(PUBLIC)),
                         content := m.content + [ReturnObjectLine]))
  }

  /**
   * After addBuildMethodTo the class has a build method. With an "object" variable of type
   * T the build method returns T, is public and ends with "return object;", and nothing but
   * the build method changed. Without one, only the fetch took place: a class that had no
   * build method gets the new method "void build()" with an empty body.
   */
  lemma AddBuildMethodEffect(d: ClazzDecl)
    requires WellFormed(d)
    ensures var r := AddBuildMethodD(d);
            WellFormed(r) && BuildMethodName in r.methods
            && r.variables == d.variables && r.constructors == d.constructors
            && r.key == d.key && r.packageIdent == d.packageIdent
            && (forall k :: k in d.methods && k != BuildMethodName ==> r.methods[k] == d.methods[k])
    ensures var r := AddBuildMethodD(d);
            HasVariable(d.variables, BuildableObjectName) ==>
              var b := r.methods[BuildMethodName];
              b.returnType == VariableFor(d.variables, BuildableObjectName).value.typ
              && PUBLIC in b.modifiers
              && |b.content| > 0 && b.content[|b.content| - 1] == ReturnObjectLine
    ensures !HasVariable(d.variables, BuildableObjectName) ==>
              AddBuildMethodD(d) == FetchMethodD(d, BuildMethodName)
    ensures !HasVariable(d.variables, BuildableObjectName) && BuildMethodName !in d.methods ==>
              AddBuildMethodD(d).methods[BuildMethodName] == NewMethodDecl(BuildMethodName)
  {
    FetchMethodKeepsOthers(d, BuildMethodName);
  }

  /**
   * addBuildMethodTo is not idempotent: a second run keeps the return type and the single
   * PUBLIC modifier but appends a second "return object;" line.
   */
  lemma AddBuildMethodTwice(d: ClazzDecl)
    requires WellFormed(d) && HasVariable(d.variables, BuildableObjectName)
    ensures var r1 := AddBuildMethodD(d);
            var r2 := AddBuildMethodD(r1);
            var b1 := r1.methods[BuildMethodName];
            var b2 := r2.methods[BuildMethodName];
            b2.returnType == b1.returnType && b2.modifiers == b1.modifiers
            && b2.content == b1.content + [ReturnObjectLine]
  {
    AddBuildMethodEffect(d);
  }

  /** handleAnnotation on snapshots: every stored class gets its build method. */
  function BuildAllD(r: RegistryDecl): (r': RegistryDecl)
    ensures r'.Keys == r.Keys
    ensures forall n :: n in r ==> r'[n] == AddBuildMethodD(r[n])
  {
    map n | n in r :: AddBuildMethodD(r[n])
  }

  /**
   * A map part way through a loop over its keys: the entries of `after` for the keys done,
   * those of `before` for the keys still in `todo`.
   */
  function Mixed(before: RegistryDecl, after: RegistryDecl, todo: set<string>): (m: RegistryDecl)
    requires after.Keys == before.Keys
    ensures m.Keys == before.Keys
    ensures forall n :: n in before && n in todo ==> m[n] == before[n]
    ensures forall n :: n in before && n !in todo ==> m[n] == after[n]
  {
    map n | n in before :: if n in todo then before[n] else after[n]
  }

  /** One more key done; with none left to do the map is `after`. */
  lemma MixedStep(before: RegistryDecl, after: RegistryDecl, todo: set<string>, n: string)
    requires after.Keys == before.Keys && n in before
    ensures Mixed(before, after, todo)[n := after[n]] == Mixed(before, after, todo - {n})
  {
    var a := Mixed(before, after, todo)[n := after[n]];
    assert a.Keys == Mixed(before, after, todo - {n}).Keys;
  }

  /** With no key left to do the map is `after`. */
  lemma MixedDone(before: RegistryDecl, after: RegistryDecl)
    requires after.Keys == before.Keys
    ensures Mixed(before, after, {}) == after
  {
    assert Mixed(before, after, {}).Keys == after.Keys;
  }

  /** Adding the build methods keeps the registry well formed. */
  lemma BuildAllWellFormed(r: RegistryDecl)
    requires RegistryWellFormed(r)
    ensures RegistryWellFormed(BuildAllD(r))
  {
    forall n | n in r
      ensures WellFormed(BuildAllD(r)[n]) && BuildAllD(r)[n].key == n
    {
      AddBuildMethodEffect(r[n]);
    }
  }

  /** Each stored class's build() is the text of its snapshot, and lies in the registry's reads. */
  lemma BuiltTexts(reg: ClazzBuilder)
    requires reg.Valid()
    ensures RegistryWellFormed(reg.Decl())
    ensures forall n | n in reg.cache ::
              reg.cache[n].methods.Values <= MethodsOf(reg.cache.Values)
              && reg.cache[n].Build() == SourcesD(reg.Decl())[n]
  {
    reg.DeclWellFormed();
    forall n | n in reg.cache
      ensures reg.cache[n].methods.Values <= MethodsOf(reg.cache.Values)
      ensures reg.cache[n].Build() == SourcesD(reg.Decl())[n]
    {
      assert reg.cache[n] in reg.cache.Values;
    }
  }

  /** The source text written for each class: its build() under its key. */
  function SourcesD(r: RegistryDecl): (files: map<string, string>)
    requires RegistryWellFormed(r)
    ensures files.Keys == r.Keys
    ensures forall n :: n in r ==> files[n] == RenderClazz(r[n], 0)
  {
    map n | n in r :: RenderClazz(r[n], 0)
  }

  class ClazzBuildingHandler {
    /** True until canHandle has been asked once (an AtomicBoolean in the source). */
    var handleOnce: bool

    constructor ()
      ensures handleOnce
    {
      handleOnce := true;
    }

    /** canHandle: true on the first call only (getAndSet(false)). */
    method CanHandle() returns (b: bool)
      modifies this
      ensures b == old(handleOnce) && !handleOnce
    {
      b := handleOnce;
      handleOnce := false;
    }

    /** addBuildMethodTo: fetches "build" and completes it from the "object" variable. */
    method AddBuildMethodTo(c: Clazz)
      requires c.Valid()
      modifies c, c.methods.Values
      ensures c.Valid() && c.key == old(c.key)
      ensures c.Decl() == AddBuildMethodD(old(c.Decl()))
    {
      var m := c.FetchMethod(BuildMethodName);
      ghost var d1 := c.Decl();
      ghost var md := m.Decl();
      label Fetched:
      var builds := VariableFor(c.GetVariables(), BuildableObjectName);
      if builds.None? {
        return;
      }
      CompleteBuildMethod(m, builds.value);
      MethodUpdatedValid@Fetched((c, BuildMethodName));
      MethodUpdated@Fetched((c, BuildMethodName));
      assert c.Decl() == WithMethodD(d1, BuildMethodName, m.Decl());
    }

    /** The steps of addBuildMethodTo on the build method, given the "object" variable. */
    method CompleteBuildMethod(m: Method, builds: VariableDecl)
      requires m.Valid() && builds.key == BuildableObjectName
      modifies m
      ensures m.Valid() && m.key == old(m.key)
      ensures m.Decl() == old(m.Decl()).(returnType := builds.typ,
                                         modifiers := WithModifier(old(m.modifiers), Some(PUBLIC)),
                                         content := old(m.content) + [ReturnObjectLine])
    {
      m.SetReturnType(builds.typ);
      m.AddModifier(Some(PUBLIC));
      m.AddLine("return " + builds.key + ";");
    }

    /**
     * handleAnnotation: every stored class gets its build method, and the text of each is
     * returned under the class's key, as the source file of that name would receive it.
     */
    method HandleAnnotation(reg: ClazzBuilder) returns (files: map<string, string>)
      requires reg.Valid()
      modifies reg.Repr() - {reg}
      ensures reg.Valid() && reg.cache == old(reg.cache)
      ensures reg.Decl() == BuildAllD(old(reg.Decl())) && RegistryWellFormed(reg.Decl())
      ensures files == SourcesD(BuildAllD(old(reg.Decl())))
      ensures files.Keys == reg.cache.Keys
      ensures forall n | n in reg.cache :: files[n] == reg.cache[n].Build()
    {
      ghost var st := StartBuilding(reg);
      ghost var st0 := st;
      var todo := reg.cache.Keys;
      while todo != {}
        invariant st == st0.(todo := todo) && Building(reg, st)
        decreases todo
      {
        var n :| n in todo;
        PlannedAt(st, n);
        BuildOne(reg, n, st);
        todo := todo - {n};
        st := st.(todo := todo);
      }
      FinishBuilding(reg, st);
      BuiltTexts(reg);
      files := SourcesD(reg.Decl());
    }

    /**
     * One round of handleAnnotation's loop: the class stored under `n`, one of those still
     * to do, gets its build method, and its text is returned.
     */
    method BuildOne(reg: ClazzBuilder, n: string, ghost st: LoopState)
      requires Building(reg, st) && n in st.todo && n in st.built
      requires st.built[n] == AddBuildMethodD(st.start[n])
      modifies reg.cache[n], reg.cache[n].methods.Values
      ensures Building(reg, st.(todo := st.todo - {n}))
    {
      var c := reg.cache[n];
      assert c.Decl() == st.start[n];
      label Before:
      AddBuildMethodTo(c);
      BuildingStep@Before((reg, st, n));
    }
  }

  /**
   * The ghost state of handleAnnotation's loop: the snapshot it starts from, the snapshot
   * it ends with, the names still to do and the objects it may change.
   */
  datatype LoopState = LoopState(start: RegistryDecl, built: RegistryDecl, todo: set<string>, frame: set<object>)

  /** The end snapshot is the one handleAnnotation promises for the start snapshot. */
  ghost predicate Planned(st: LoopState) {
    st.built == BuildAllD(st.start)
  }

  /**
   * The registry is valid, the classes not in `todo` are as in `built`, the others as at the
   * start, and the classes in `todo` and their methods lie in `frame`.
   */
  ghost predicate Building(reg: ClazzBuilder, st: LoopState)
    reads reg, reg.cache.Values, MethodsOf(reg.cache.Values)
  {
    reg.Valid() && st.todo <= reg.cache.Keys && st.built.Keys == st.start.Keys
    && reg.Decl() == Mixed(st.start, st.built, st.todo)
    && forall n | n in st.todo :: reg.cache[n] in st.frame && reg.cache[n].methods.Values <= st.frame
  }

  /** Before handleAnnotation's loop: every class is still to do. */
  lemma StartBuilding(reg: ClazzBuilder) returns (st: LoopState)
    requires reg.Valid()
    ensures Building(reg, st) && Planned(st) && st.todo == reg.cache.Keys
    ensures st.start == reg.Decl() && st.frame == reg.Repr() - {reg}
  {
    st := LoopState(reg.Decl(), BuildAllD(reg.Decl()), reg.cache.Keys, reg.Repr() - {reg});
    ReprCovers(reg);
    assert Mixed(st.start, st.built, st.todo) == st.start;
  }

  /** The class under `n` in the end snapshot is the one under `n` at the start, built. */
  lemma PlannedAt(st: LoopState, n: string)
    requires Planned(st) && n in st.start
    ensures n in st.built && st.built[n] == AddBuildMethodD(st.start[n])
  {
  }

  /** After handleAnnotation's loop: every class is built. */
  lemma FinishBuilding(reg: ClazzBuilder, st: LoopState)
    requires Building(reg, st) && Planned(st) && st.todo == {}
    ensures reg.Decl() == BuildAllD(st.start)
  {
    MixedDone(st.start, st.built);
  }

  /** One more class as in `built` keeps the loop state, with that class out of `todo`. */
  twostate lemma BuildingStep(s: (ClazzBuilder, LoopState, string))
    requires old(Building(s.0, s.1)) && s.2 in s.1.todo
    requires unchanged(s.0)
    requires forall o: object | old(allocated(o)) && o != old(s.0.cache[s.2])
               && o !in old(s.0.cache[s.2].methods.Values) :: unchanged(o)
    requires s.0.cache[s.2].Valid() && s.0.cache[s.2].key == s.2
    requires s.0.cache[s.2].Decl() == s.1.built[s.2]
    ensures Building(s.0, s.1.(todo := s.1.todo - {s.2}))
  {
    var (reg, st, n) := s;
    ClazzUpdated((reg, n, null));
    MixedStep(st.start, st.built, st.todo, n);
    assert reg.Decl() == Mixed(st.start, st.built, st.todo - {n});
    forall n' | n' in st.todo - {n}
      ensures reg.cache[n'] in st.frame && reg.cache[n'].methods.Values <= st.frame
    {
      assert old(reg.cache[n'] in st.frame && reg.cache[n'].methods.Values <= st.frame);
    }
  }
}
