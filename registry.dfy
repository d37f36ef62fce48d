/** ClazzBuilder: the registry of generated classes, keyed by builder name. */
module Registry {

  import opened Host
  import opened Methods
  import opened Clazzes

  /** The state of the registry: the snapshot of each stored class, under its name. */
  type RegistryDecl = map<string, ClazzDecl>

  /** What a handler's run leaves: the registry, the diagnostics, and whether an exception ended it. */
  datatype Run = Run(reg: RegistryDecl, messages: seq<Diagnostic>, failed: bool)

  /**
   * getRootForName on snapshots: a stored class comes back as it is, never replaced;
   * otherwise a new empty class named `name`.
   */
  function RootD(r: RegistryDecl, name: string): (d: ClazzDecl)
    ensures name in r ==> d == r[name]
    ensures name !in r ==> d.key == name && d.packageIdent.None? && d.variables == []
                           && d.methods == map[] && d.constructors == []
  {
    if name in r then r[name] else NewClazzDecl(name)
  }

  /** The registry after getRootForName(name): a class is stored under `name`. */
  function WithRoot(r: RegistryDecl, name: string): (r': RegistryDecl)
    ensures r'.Keys == r.Keys + {name}
    ensures forall n :: n in r ==> r'[n] == r[n]
    ensures r'[name] == RootD(r, name)
  {
    if name in r then r else r[name := NewClazzDecl(name)]
  }

  /** getRootForName is idempotent, and stores a class under exactly the names asked for. */
  lemma WithRootIdempotent(r: RegistryDecl, name: string)
    ensures WithRoot(WithRoot(r, name), name) == WithRoot(r, name)
    ensures RootD(WithRoot(r, name), name) == RootD(r, name)
  {
  }

  /** Storing a class under the name just fetched overrides whatever getRootForName stored there. */
  lemma WithRootThenStore(r: RegistryDecl, name: string, d: ClazzDecl)
    ensures WithRoot(r, name)[name := d] == r[name := d]
  {
    assert WithRoot(r, name)[name := d].Keys == r[name := d].Keys;
  }

  /** Every Method object held by the given classes. */
  ghost function MethodsOf(cs: set<Clazz>): set<Method>
    reads cs
  {
    set c, m | c in cs && m in c.methods.Values :: m
  }

  /** The snapshots of the classes of a cache, under the same names. */
  function CacheDecl(cache: map<string, Clazz>): (r: RegistryDecl)
    reads cache.Values, MethodsOf(cache.Values)
    ensures r.Keys == cache.Keys
    ensures forall n :: n in cache ==> r[n] == cache[n].Decl()
  {
    map n | n in cache :: assert cache[n].methods.Values <= MethodsOf(cache.Values); cache[n].Decl()
  }

  /**
   * When only the class under `slot.1`, its methods and the messager `slot.3` changed, the
   * class stored under another name `slot.2` is unchanged, with all its methods: classes
   * under different names share no Method object.
   */
  twostate lemma OtherClazzUnchanged(slot: (ClazzBuilder, string, string, Messager?))
    requires old(slot.0.Valid()) && slot.1 in old(slot.0.cache) && slot.2 in old(slot.0.cache)
    requires slot.1 != slot.2 && unchanged(slot.0)
    requires forall o: object | old(allocated(o)) && o != old(slot.0.cache[slot.1])
               && o !in old(slot.0.cache[slot.1].methods.Values) && o != slot.3 :: unchanged(o)
    ensures unchanged(slot.0.cache[slot.2]) && unchanged(slot.0.cache[slot.2].methods.Values)
  {
    var (reg, name, n, messager) := slot;
    var c, c' := reg.cache[name], reg.cache[n];
    assert old(c'.key) == n && old(c.key) == name;
    assert c' in old(reg.cache.Values);
    assert c' as object !in old(c.methods.Values);
    assert unchanged(c');
    forall m | m in c'.methods.Values
      ensures unchanged(m)
    {
      var k :| k in c'.methods && c'.methods[k] == m;
      assert old(c'.Valid()) && old(c.Valid());
      assert m.owner == c';
      assert forall m' | m' in old(c.methods.Values) :: m'.owner == c;
      assert m in old(c'.methods.Values) && old(allocated(m));
    }
  }

  /**
   * When, of the objects of registry `slot.0`, only the class stored under name `slot.1`
   * and its methods changed (and, beside the registry, at most the messager `slot.2`), the
   * registry stays valid and its snapshot differs only under that name.
   */
  twostate lemma ClazzUpdated(slot: (ClazzBuilder, string, Messager?))
    requires old(slot.0.Valid()) && slot.1 in old(slot.0.cache)
    requires unchanged(slot.0)
    requires forall o: object | old(allocated(o)) && o != old(slot.0.cache[slot.1])
               && o !in old(slot.0.cache[slot.1].methods.Values) && o != slot.2 :: unchanged(o)
    requires slot.0.cache[slot.1].key == slot.1 && slot.0.cache[slot.1].Valid()
    ensures slot.0.Valid()
    ensures slot.0.Decl() == old(slot.0.Decl())[slot.1 := slot.0.cache[slot.1].Decl()]
    ensures forall n | n in slot.0.cache && n != slot.1 :: slot.0.cache[n].methods == old(slot.0.cache[n].methods)
  {
    var (reg, name, messager) := slot;
    forall n | n in reg.cache && n != name
      ensures reg.cache[n].Decl() == old(reg.cache[n].Decl()) && reg.cache[n].Valid()
      ensures reg.cache[n].methods == old(reg.cache[n].methods)
    {
      OtherClazzUnchanged((reg, name, n, messager));
      MethodDeclMapUnchanged(reg.cache[n].methods);
    }
    CacheDeclStore(reg.cache, old(reg.Decl()), name, reg.cache[name]);
    assert reg.cache[name := reg.cache[name]] == reg.cache;
  }

  /** The classes of a registry snapshot are well formed and stored under their own names. */
  ghost predicate RegistryWellFormed(r: RegistryDecl) {
    forall n :: n in r ==> WellFormed(r[n]) && r[n].key == n
  }

  /** Every stored class and every method of one belongs to the registry's footprint. */
  lemma ReprCovers(reg: ClazzBuilder)
    ensures forall n | n in reg.cache ::
              reg.cache[n] in reg.Repr() - {reg} && reg.cache[n].methods.Values <= reg.Repr() - {reg}
  {
    forall n | n in reg.cache
      ensures reg.cache[n] in reg.Repr() - {reg} && reg.cache[n].methods.Values <= reg.Repr() - {reg}
    {
      assert reg.cache[n] in reg.cache.Values;
    }
  }

  /** The messager is none of the registry's objects. */
  lemma MessagerOutside(reg: ClazzBuilder, messager: Messager)
    ensures messager !in reg.Repr()
  {
  }

  /** A registry none of whose objects changed keeps its validity and its snapshot. */
  twostate lemma RegistryUnchanged(reg: ClazzBuilder)
    requires old(reg.Valid())
    requires forall o | o in old(reg.Repr()) :: unchanged(o)
    ensures reg.Valid() && reg.Decl() == old(reg.Decl())
    ensures reg.Repr() == old(reg.Repr())
  {
    assert reg in old(reg.Repr());
    assert reg.cache == old(reg.cache);
    forall n | n in reg.cache
      ensures reg.cache[n].Decl() == old(reg.cache[n].Decl())
      ensures reg.cache[n].key == n && reg.cache[n].Valid()
    {
      var c := reg.cache[n];
      assert c in old(reg.cache.Values);
      assert c in old(reg.Repr());
      forall m | m in c.methods.Values
        ensures unchanged(m)
      {
        assert m in old(MethodsOf(reg.cache.Values));
      }
      ClazzKept(c);
    }
    forall c | c in reg.cache.Values
      ensures unchanged(c)
    {
      assert c in old(reg.Repr());
    }
    ReprKept(reg);
  }

  /** A registry whose classes did not change keeps its footprint. */
  twostate lemma ReprKept(reg: ClazzBuilder)
    requires unchanged(reg) && forall c | c in reg.cache.Values :: unchanged(c)
    ensures reg.Repr() == old(reg.Repr())
  {
    assert MethodsOf(reg.cache.Values) == old(MethodsOf(reg.cache.Values));
  }

  /** A class none of whose fields and methods changed keeps its snapshot and its validity. */
  twostate lemma ClazzKept(c: Clazz)
    requires unchanged(c) && forall m | m in c.methods.Values :: unchanged(m)
    ensures c.Decl() == old(c.Decl()) && (old(c.Valid()) ==> c.Valid())
  {
    MethodDeclMapUnchanged(c.methods);
  }

  /** The state change of storing class `slot.1` in registry `slot.0` under its key. */
  twostate predicate Stored(slot: (ClazzBuilder, Clazz))
    reads slot.0, slot.1
  {
    slot.1.key !in old(slot.0.cache) && slot.0.cache == old(slot.0.cache)[slot.1.key := slot.1]
  }

  /** Storing a valid class under a new key keeps the registry valid. */
  twostate lemma StoredValid(slot: (ClazzBuilder, Clazz))
    requires old(slot.0.Valid()) && slot.1.Valid() && slot.1.methods == map[] && Stored(slot)
    requires forall o | o in old(slot.0.Repr()) && o != slot.0 :: unchanged(o)
    ensures slot.0.Valid()
  {
    var (reg, c) := slot;
    forall n | n in old(reg.cache)
      ensures old(reg.cache)[n].key == n && old(reg.cache)[n].Valid()
    {
      var c' := old(reg.cache)[n];
      assert c' in old(reg.cache.Values);
      assert c' in old(reg.Repr()) && c' as object != reg;
      assert unchanged(c');
      forall m | m in c'.methods.Values
        ensures unchanged(m)
      {
        assert m in old(MethodsOf(reg.cache.Values));
      }
    }
  }

  /** Storing a new class without methods only adds that class to the footprint. */
  twostate lemma GrownByNewClazz(slot: (ClazzBuilder, string))
    requires slot.1 in slot.0.cache && fresh(slot.0.cache[slot.1]) && slot.0.cache[slot.1].methods == map[]
    requires slot.0.cache.Values == old(slot.0.cache.Values) + {slot.0.cache[slot.1]}
    requires forall o | o in old(slot.0.cache.Values) :: unchanged(o)
    ensures Grown(slot.0)
  {
    var (reg, name) := slot;
    var c := reg.cache[name];
    forall o | o in reg.Repr()
      ensures o in old(reg.Repr()) || fresh(o)
    {
      if o in MethodsOf(reg.cache.Values) {
        var c', m :| c' in reg.cache.Values && m in c'.methods.Values && o == m;
        assert c' != c;
        assert m in old(c'.methods.Values);
      }
    }
  }

  /** Storing a class under a new key adds its snapshot under that key. */
  twostate lemma StoredDecl(slot: (ClazzBuilder, Clazz))
    requires old(slot.0.Valid()) && slot.1.methods == map[] && Stored(slot)
    requires forall o | o in old(slot.0.Repr()) && o != slot.0 :: unchanged(o)
    ensures slot.0.Decl() == old(slot.0.Decl())[slot.1.key := slot.1.Decl()]
  {
    var (reg, c) := slot;
    forall n | n in old(reg.cache)
      ensures old(reg.cache)[n].Decl() == old(reg.Decl())[n]
    {
      var c' := old(reg.cache)[n];
      assert c' in old(reg.cache.Values);
      assert c' in old(reg.Repr()) && c' as object != reg;
      assert unchanged(c');
      forall m | m in c'.methods.Values
        ensures unchanged(m)
      {
        assert m in old(MethodsOf(reg.cache.Values));
      }
      MethodDeclMapUnchanged(c'.methods);
    }
    CacheDeclStore(old(reg.cache), old(reg.Decl()), c.key, c);
  }

  /** Replacing the class under `name` replaces only its snapshot. */
  lemma CacheDeclStore(oc: map<string, Clazz>, before: RegistryDecl, name: string, c: Clazz)
    requires before.Keys == oc.Keys
    requires forall n | n in oc && n != name :: oc[n].Decl() == before[n]
    ensures CacheDecl(oc[name := c]) == before[name := c.Decl()]
  {
    var r := CacheDecl(oc[name := c]);
    assert r.Keys == before[name := c.Decl()].Keys;
  }

  /** Every object of the registry's footprint was part of it before, or is new. */
  twostate predicate Grown(reg: ClazzBuilder)
    reads reg, reg.cache.Values
  {
    forall o | o in reg.Repr() :: o in old(reg.Repr()) || fresh(o)
  }

  /**
   * When the classes stay where they were, the classes under names other than `slot.1`
   * keep their methods and that class gains only new ones, the footprint only grew.
   */
  twostate lemma GrownByClazz(slot: (ClazzBuilder, string))
    requires unchanged(slot.0) && slot.1 in slot.0.cache
    requires forall n | n in slot.0.cache && n != slot.1 :: slot.0.cache[n].methods == old(slot.0.cache[n].methods)
    requires forall m | m in slot.0.cache[slot.1].methods.Values ::
               m in old(slot.0.cache[slot.1].methods.Values) || fresh(m)
    ensures Grown(slot.0)
  {
    var (reg, name) := slot;
    forall o | o in reg.Repr()
      ensures o in old(reg.Repr()) || fresh(o)
    {
      if o in MethodsOf(reg.cache.Values) {
        var c, m :| c in reg.cache.Values && m in c.methods.Values && o == m;
        var n :| n in reg.cache && reg.cache[n] == c;
        assert c in old(reg.cache.Values);
        if n != name {
          assert m in old(c.methods.Values);
        }
      }
    }
  }

  /** The registry singleton, as an explicit object. */
  class ClazzBuilder {
    /** Maps builder names to Clazz objects; a HashMap in the source. */
    var cache: map<string, Clazz>

    /**
     * Each class is stored under its own key and is valid; classes stored under different
     * names are different objects, so none shares a Method object with another.
     */
    ghost predicate Valid()
      reads this, cache.Values, MethodsOf(cache.Values)
    {
      forall n | n in cache :: cache[n].key == n && cache[n].Valid()
    }

    /** The snapshot of every stored class. */
    function Decl(): RegistryDecl
      reads this, cache.Values, MethodsOf(cache.Values)
    {
      CacheDecl(cache)
    }

    /** Every object the registry's snapshot depends on. */
    ghost function Repr(): set<object>
      reads this, cache.Values
    {
      {this} + (set c | c in cache.Values :: c as object) + MethodsOf(cache.Values)
    }

    /** The registry starts empty. */
    constructor ()
      ensures Valid() && fresh(this) && Decl() == map[]
    {
      cache := map[];
    }

    /**
     * getRootForName (HashMap.computeIfAbsent): the class stored under `name`, the same
     * object on every call, or a new Clazz(name) stored under it.
     */
    method GetRootForName(name: string) returns (c: Clazz)
      requires Valid()
      modifies this
      ensures Valid() && name in cache && c == cache[name] && c.key == name
      ensures Decl() == WithRoot(old(Decl()), name)
      ensures name in old(cache) ==> cache == old(cache) && c == old(cache[name])
      ensures name !in old(cache) ==> fresh(c) && cache == old(cache)[name := c] && c.methods == map[]
      ensures forall x | x in cache.Values :: x in old(cache.Values) || fresh(x)
      ensures Grown(this)
    {
      if name in cache {
        c := cache[name];
        assert CacheDecl(cache) == old(CacheDecl(cache));
      } else {
        c := new Clazz(name);
        RegistryUnchanged(this);
        StoreClazz(c);
        MapValuesInsert(old(cache), name, c);
        GrownByNewClazz((this, name));
      }
    }

    /** The insertion half of computeIfAbsent: a new, empty class is stored under its key. */
    method StoreClazz(c: Clazz)
      requires Valid() && c.Valid() && c.key !in cache && c.methods == map[]
      modifies this
      ensures Valid() && cache == old(cache)[c.key := c]
      ensures Decl() == old(Decl())[c.key := c.Decl()]
    {
      cache := cache[c.key := c];
      StoredValid((this, c));
      StoredDecl((this, c));
    }

    /** The snapshot of a valid registry is well formed. */
    lemma DeclWellFormed()
      requires Valid()
      ensures RegistryWellFormed(Decl())
    {
      forall n | n in cache
        ensures WellFormed(Decl()[n])
      {
        cache[n].DeclWellFormed();
      }
    }

    /** fetchAllClazzes: exactly the stored Clazz objects. */
    function FetchAllClazzes(): (cs: set<Clazz>)
      reads this
      ensures forall n | n in cache :: cache[n] in cs
      ensures forall c | c in cs :: exists n :: n in cache && cache[n] == c
    {
      cache.Values
    }
  }
}
