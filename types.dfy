/**
 * Type: what every generated entity shares, a key (its name) and an ordered list of
 * modifiers without duplicates. The classes of the entity modules carry these two
 * fields themselves; this module holds the list operations they apply and the
 * rendering of the list.
 */
module Types {

  import opened Wrappers
  import opened Host
  import opened BeelderUtils

  /** No element occurs twice. */
  predicate NoDuplicates<T(==)>(s: seq<T>) {
    forall i, j :: 0 <= i < j < |s| ==> s[i] != s[j]
  }

  /** A sequence without duplicates has as many distinct elements as it is long. */
  lemma {:induction false} DistinctCount<T>(s: seq<T>)
    requires NoDuplicates(s)
    ensures |set x | x in s| == |s|
  {
    if s != [] {
      var init := s[..|s| - 1];
      assert NoDuplicates(init);
      DistinctCount(init);
      assert s[|s| - 1] !in init;
      assert (set x | x in s) == (set x | x in init) + {s[|s| - 1]} by {
        assert s == init + [s[|s| - 1]];
      }
    }
  }

  /** Stream.filter: the elements of `s` that satisfy `p`, in their order. */
  function Filter<T>(p: T -> bool, s: seq<T>): (r: seq<T>)
    ensures |r| <= |s|
  {
    if s == [] then [] else (if p(s[0]) then [s[0]] else []) + Filter(p, s[1..])
  }

  /** filter keeps exactly the elements satisfying the predicate. */
  lemma {:induction false} FilterMembers<T>(p: T -> bool, s: seq<T>)
    ensures forall x :: x in Filter(p, s) <==> x in s && p(x)
  {
    if s != [] {
      FilterMembers(p, s[1..]);
      assert s == [s[0]] + s[1..];
    }
  }

  /**
   * Collectors.partitioningBy: the elements satisfying `p` and those that do not together
   * are the elements of `s`, each as often as in `s`.
   */
  lemma {:induction false} FilterPartition<T>(p: T -> bool, q: T -> bool, s: seq<T>)
    requires forall x :: q(x) == !p(x)
    ensures multiset(Filter(p, s)) + multiset(Filter(q, s)) == multiset(s)
  {
    if s != [] {
      FilterPartition(p, q, s[1..]);
      var fp, fq := Filter(p, s[1..]), Filter(q, s[1..]);
      if p(s[0]) {
        assert Filter(p, s) == [s[0]] + fp && Filter(q, s) == fq;
      } else {
        assert Filter(p, s) == fp && Filter(q, s) == [s[0]] + fq;
      }
      assert s == [s[0]] + s[1..];
    }
  }

  /** A sequence agreeing with `b` on its indices and one longer is `b` and its last element. */
  lemma SeqSnoc<T>(pre: seq<T>, a: seq<T>, b: seq<T>)
    requires |a| == |b| + 1 && forall j | 0 <= j < |b| :: a[j] == b[j]
    ensures pre + a == pre + b + [a[|b|]]
  {
    assert a == b + [a[|b|]];
  }

  /** addModifier: a modifier that is absent (None stands for null) or already present changes nothing. */
  function WithModifier(mods: seq<Modifier>, m: Option<Modifier>): (r: seq<Modifier>)
    ensures m.None? || m.value in mods ==> r == mods
    ensures m.Some? && m.value !in mods ==> r == mods + [m.value]
    ensures NoDuplicates(mods) ==> NoDuplicates(r)
  {
    if m.Some? && m.value !in mods then mods + [m.value] else mods
  }

  /**
   * addModifiers: the argument modifiers in order, each added unless the list holds it
   * already (including one added earlier in the same call).
   */
  function WithModifiers(mods: seq<Modifier>, ms: seq<Modifier>): (r: seq<Modifier>)
    ensures |mods| <= |r| && r[..|mods|] == mods
    ensures forall x :: x in r <==> x in mods || x in ms
    ensures forall p :: |mods| <= p < |r| ==> r[p] !in mods
    ensures NoDuplicates(mods) ==> NoDuplicates(r)
  {
    if ms == [] then mods
    else WithModifier(WithModifiers(mods, ms[..|ms| - 1]), Some(ms[|ms| - 1]))
  }

  /** Adding only modifiers that are all present already changes nothing. */
  lemma {:induction false} WithModifiersPresent(mods: seq<Modifier>, ms: seq<Modifier>)
    requires forall x :: x in ms ==> x in mods
    ensures WithModifiers(mods, ms) == mods
  {
    if ms != [] {
      WithModifiersPresent(mods, ms[..|ms| - 1]);
      assert ms[|ms| - 1] in ms;
    }
  }

  /** addModifiers is idempotent: adding the same modifiers twice is adding them once. */
  lemma WithModifiersIdempotent(mods: seq<Modifier>, ms: seq<Modifier>)
    ensures WithModifiers(WithModifiers(mods, ms), ms) == WithModifiers(mods, ms)
  {
    WithModifiersPresent(WithModifiers(mods, ms), ms);
  }

  /** The position of the first occurrence of `x` in `s`. */
  function IndexOf<T(==)>(s: seq<T>, x: T): (i: nat)
    requires x in s
    ensures i < |s| && s[i] == x && x !in s[..i]
  {
    if s[0] == x then 0 else 1 + IndexOf(s[1..], x)
  }

  /** What follows the first |mods| entries of `r` comes from `ms`, in the order of first occurrence there. */
  predicate AppendedInOrder(mods: seq<Modifier>, ms: seq<Modifier>, r: seq<Modifier>) {
    forall p, q :: |mods| <= p < q < |r| ==> r[p] in ms && r[q] in ms && IndexOf(ms, r[p]) < IndexOf(ms, r[q])
  }

  /** The modifiers addModifiers appends come in the order of their first occurrence in the argument. */
  lemma {:induction false} WithModifiersOrder(mods: seq<Modifier>, ms: seq<Modifier>)
    ensures AppendedInOrder(mods, ms, WithModifiers(mods, ms))
  {
    if ms != [] {
      var init := ms[..|ms| - 1];
      var r0 := WithModifiers(mods, init);
      WithModifiersOrder(mods, init);
      assert ms == init + [ms[|ms| - 1]];
      OrderStep(mods, init, ms[|ms| - 1], r0, WithModifiers(mods, ms));
    }
  }

  /** One more argument modifier keeps the appended part in first-occurrence order. */
  lemma OrderStep(mods: seq<Modifier>, init: seq<Modifier>, last: Modifier, r0: seq<Modifier>, r: seq<Modifier>)
    requires AppendedInOrder(mods, init, r0)
    requires |mods| <= |r0| && forall p :: |mods| <= p < |r0| ==> r0[p] in init
    requires r == r0 || (r == r0 + [last] && last !in r0 && last !in init)
    ensures AppendedInOrder(mods, init + [last], r)
  {
    var ms := init + [last];
    forall p, q | |mods| <= p < q < |r|
      ensures r[p] in ms && r[q] in ms && IndexOf(ms, r[p]) < IndexOf(ms, r[q])
    {
      assert r[p] == r0[p];
      IndexOfPrefix(init, last, r[p]);
      if q < |r0| {
        assert r[q] == r0[q];
        IndexOfPrefix(init, last, r[q]);
      } else {
        IndexOfNotInPrefix(init, last);
      }
    }
  }

  lemma {:induction false} IndexOfPrefix<T>(init: seq<T>, last: T, x: T)
    requires x in init
    ensures IndexOf(init + [last], x) == IndexOf(init, x)
  {
    if init[0] != x {
      assert (init + [last])[1..] == init[1..] + [last];
      IndexOfPrefix(init[1..], last, x);
    }
  }

  lemma {:induction false} IndexOfNotInPrefix<T>(init: seq<T>, last: T)
    requires last !in init
    ensures IndexOf(init + [last], last) == |init|
  {
    if init != [] {
      assert (init + [last])[1..] == init[1..] + [last];
      IndexOfNotInPrefix(init[1..], last);
    }
  }

  /** Each modifier's lower-case name followed by one space, in list order. */
  function RenderModifiers(mods: seq<Modifier>): (r: string)
    ensures mods == [] ==> r == ""
  {
    if mods == [] then "" else RenderModifiers(mods[..|mods| - 1]) + ModififerToLowercase(mods[|mods| - 1]) + " "
  }

  /** Adding a new modifier adds its name and a space at the end of the rendered list. */
  lemma RenderWithModifier(mods: seq<Modifier>, m: Modifier)
    requires m !in mods
    ensures RenderModifiers(WithModifier(mods, Some(m))) == RenderModifiers(mods) + ModififerToLowercase(m) + " "
  {
    assert (mods + [m])[..|mods|] == mods;
  }
}
