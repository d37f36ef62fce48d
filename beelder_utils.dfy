/** BeelderUtils: collection checks, modifier names and the diagnostic message format. */
module BeelderUtils {

  import opened Wrappers
  import opened Strings
  import opened Host

  /** containsAny(col, check...): some element of `check` is in `col`. */
  function ContainsAny<T>(col: set<T>, check: seq<T>): (r: bool)
    ensures r <==> exists i :: 0 <= i < |check| && check[i] in col
  {
    if check == [] then false else check[0] in col || ContainsAny(col, check[1..])
  }

  /** containsNone(col, check...): no element of `check` is in `col`. */
  function ContainsNone<T>(col: set<T>, check: seq<T>): (r: bool)
    ensures r <==> forall i :: 0 <= i < |check| ==> check[i] !in col
  {
    !ContainsAny(col, check)
  }

  /** The two-element form the handlers use: containsAny(col, a, b) and containsNone(col, a, b). */
  lemma ContainsOfTwo<T>(col: set<T>, a: T, b: T)
    ensures ContainsAny(col, [a, b]) <==> a in col || b in col
    ensures ContainsNone(col, [a, b]) <==> a !in col && b !in col
  {
    assert [a, b][0] == a && [a, b][1] == b;
  }

  /** modififerToLowercase: the modifier's name in lower case, a non-empty run of lower-case letters. */
  function ModififerToLowercase(m: Modifier): (r: string)
    ensures r != [] && forall i :: 0 <= i < |r| ==> 'a' <= r[i] <= 'z'
  {
    match m
    case PUBLIC => "public"
    case PROTECTED => "protected"
    case PRIVATE => "private"
    case ABSTRACT => "abstract"
    case DEFAULT => "default"
    case STATIC => "static"
    case FINAL => "final"
    case TRANSIENT => "transient"
    case VOLATILE => "volatile"
    case SYNCHRONIZED => "synchronized"
    case NATIVE => "native"
    case STRICTFP => "strictfp"
  }

  /** The lower-case name is name().toLowerCase(Locale.ROOT) of the enum constant. */
  lemma ModifierLowercaseIsLowercasedName(m: Modifier)
    ensures ModififerToLowercase(m) == Lowercase(ModifierName(m))
  {
    if m.PUBLIC? || m.PROTECTED? || m.PRIVATE? || m.ABSTRACT? || m.DEFAULT? || m.STATIC? {
      AccessModifierLowercase(m);
    } else {
      OtherModifierLowercase(m);
    }
  }

  lemma AccessModifierLowercase(m: Modifier)
    requires m.PUBLIC? || m.PROTECTED? || m.PRIVATE? || m.ABSTRACT? || m.DEFAULT? || m.STATIC?
    ensures ModififerToLowercase(m) == Lowercase(ModifierName(m))
  {
    match m
    case PUBLIC => LowercaseOf("PUBLIC", "public");
    case PROTECTED => LowercaseOf("PROTECTED", "protected");
    case PRIVATE => LowercaseOf("PRIVATE", "private");
    case ABSTRACT => LowercaseOf("ABSTRACT", "abstract");
    case DEFAULT => LowercaseOf("DEFAULT", "default");
    case STATIC => LowercaseOf("STATIC", "static");
  }

  lemma OtherModifierLowercase(m: Modifier)
    requires !(m.PUBLIC? || m.PROTECTED? || m.PRIVATE? || m.ABSTRACT? || m.DEFAULT? || m.STATIC?)
    ensures ModififerToLowercase(m) == Lowercase(ModifierName(m))
  {
    match m
    case FINAL => LowercaseOf("FINAL", "final");
    case TRANSIENT => LowercaseOf("TRANSIENT", "transient");
    case VOLATILE => LowercaseOf("VOLATILE", "volatile");
    case SYNCHRONIZED => LowercaseOf("SYNCHRONIZED", "synchronized");
    case NATIVE => LowercaseOf("NATIVE", "native");
    case STRICTFP => LowercaseOf("STRICTFP", "strictfp");
  }

  /** `l` is `n` lower-cased when they agree character by character. */
  lemma LowercaseOf(n: string, l: string)
    requires |l| == |n| && forall i :: 0 <= i < |n| ==> l[i] == LowerChar(n[i])
    ensures l == Lowercase(n)
  {
  }

  /** Every enum name is upper-case letters only. */
  predicate UpperLetters(s: string) {
    forall i :: 0 <= i < |s| ==> 'A' <= s[i] <= 'Z'
  }

  lemma ModifierNameUpper(m: Modifier)
    ensures UpperLetters(ModifierName(m))
  {
  }

  /** Lower-casing upper-case letters is undone by upper-casing. */
  lemma {:induction false} LowercaseRoundTrip(s: string)
    requires UpperLetters(s)
    ensures Uppercase(Lowercase(s)) == s
  {
    var r := Uppercase(Lowercase(s));
    forall i | 0 <= i < |s|
      ensures r[i] == s[i]
    {
    }
  }

  /** The lower-case name identifies the modifier: upper-casing it gives back the enum name. */
  lemma ModifierLowercaseRoundTrip(m: Modifier)
    ensures Uppercase(ModififerToLowercase(m)) == ModifierName(m)
  {
    ModifierLowercaseIsLowercasedName(m);
    ModifierNameUpper(m);
    LowercaseRoundTrip(ModifierName(m));
  }

  /**
   * String.format("%s %s is annotated with @%s, %s!", kind, element, annotName, suffix): the
   * text opens with the lower-case kind, the element and the annotation it carries, and
   * closes with the suffix and "!".
   */
  function MessageText(kind: ElementKind, element: string, annotName: string, suffix: string): (r: string)
    ensures StartsWith(r, Lowercase(KindName(kind)) + " " + element + " is annotated with @" + annotName + ", ")
    ensures EndsWith(r, suffix + "!")
  {
    ConcatThree(Lowercase(KindName(kind)) + " " + element + " is annotated with @" + annotName + ", ", suffix, "!");
    Lowercase(KindName(kind)) + " " + element + " is annotated with @" + annotName + ", " + suffix + "!"
  }

  /**
   * messageElementAnnotatedWith: prints one diagnostic of kind `msgKind` about `element`,
   * naming its kind in lower case, its string form, the annotation and the suffix.
   */
  method MessageElementAnnotatedWith(messager: Messager, msgKind: DiagnosticKind, annotName: string,
                                     suffix: string, element: Element)
    modifies messager
    ensures messager.messages
         == old(messager.messages) + [Diagnostic(msgKind, MessageText(element.kind, element.display, annotName, suffix))]
  {
    messager.PrintMessage(msgKind, MessageText(element.kind, element.display, annotName, suffix));
  }

  /**
   * fetchAnnotationForEnclosing: the annotation on `element` itself when it is a CLASS,
   * otherwise the annotation on its enclosing element (None stands for an enclosing
   * package, which carries no type annotation).
   */
  function FetchAnnotationForEnclosing<A>(annotationOf: Element -> Option<A>, element: Element,
                                          enclosing: Option<Element>): (r: Option<A>)
    ensures element.kind == CLASS ==> r == annotationOf(element)
    ensures element.kind != CLASS && enclosing.Some? ==> r == annotationOf(enclosing.value)
    ensures element.kind != CLASS && enclosing.None? ==> r.None?
  {
    if element.kind == CLASS then annotationOf(element)
    else if enclosing.Some? then annotationOf(enclosing.value)
    else None
  }

  /** A member of a class and the class itself resolve to the same annotation. */
  lemma EnclosingAnnotationShared<A>(annotationOf: Element -> Option<A>, member: Element, cls: Element,
                                     clsEnclosing: Option<Element>)
    requires member.kind != CLASS && cls.kind == CLASS
    ensures FetchAnnotationForEnclosing(annotationOf, member, Some(cls))
         == FetchAnnotationForEnclosing(annotationOf, cls, clsEnclosing)
  {
  }
}
