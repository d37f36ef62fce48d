/**
 * The facts the annotation-processing host supplies about source elements
 * (javax.lang.model), the annotation values read from them, and the Messager
 * that collects diagnostics.
 */
module Host {

  import opened Wrappers

  /** javax.lang.model.element.Modifier as of Java 11. */
  datatype Modifier =
    | PUBLIC | PROTECTED | PRIVATE | ABSTRACT | DEFAULT | STATIC | FINAL
    | TRANSIENT | VOLATILE | SYNCHRONIZED | NATIVE | STRICTFP

  /** Modifier.name(): the enum constant's name. */
  function ModifierName(m: Modifier): string {
    match m
    case PUBLIC => "PUBLIC"
    case PROTECTED => "PROTECTED"
    case PRIVATE => "PRIVATE"
    case ABSTRACT => "ABSTRACT"
    case DEFAULT => "DEFAULT"
    case STATIC => "STATIC"
    case FINAL => "FINAL"
    case TRANSIENT => "TRANSIENT"
    case VOLATILE => "VOLATILE"
    case SYNCHRONIZED => "SYNCHRONIZED"
    case NATIVE => "NATIVE"
    case STRICTFP => "STRICTFP"
  }

  /** The element kinds the core distinguishes (javax.lang.model.element.ElementKind). */
  datatype ElementKind = PACKAGE | CLASS | INTERFACE | ENUM | FIELD | METHOD | CONSTRUCTOR | PARAMETER

  /** ElementKind.name(). */
  function KindName(k: ElementKind): string {
    match k
    case PACKAGE => "PACKAGE"
    case CLASS => "CLASS"
    case INTERFACE => "INTERFACE"
    case ENUM => "ENUM"
    case FIELD => "FIELD"
    case METHOD => "METHOD"
    case CONSTRUCTOR => "CONSTRUCTOR"
    case PARAMETER => "PARAMETER"
  }

  /** @Buildable(writeWithReflection = ...); the default is false. */
  datatype BuildableAnnotation = BuildableAnnotation(writeWithReflection: bool)

  /** NonNull.Operation: what a generated null guard does. */
  datatype NonNullOperation = NO_OP | THROW_EXC | PRINT_TO_ERR | PRINT_TO_STDOUT | LOG_EXC

  /** @NonNull(message = ..., operation = ...). */
  datatype NonNullAnnotation = NonNullAnnotation(message: string, operation: NonNullOperation)

  const DefaultBuildable := BuildableAnnotation(false)
  const DefaultNonNull := NonNullAnnotation("Null argument found", THROW_EXC)

  /**
   * What the host reports about one element.
   *   display        Element.toString(): the qualified name of a class, the name of a
   *                  field or parameter, the signature of a method
   *   typeString     asType().toString()
   *   parameters     the parameters of a method or constructor, in declaration order
   *   returnsVoid    the return type's kind is VOID (methods only)
   *   constantValue  getConstantValue().toString(), if the element has a constant value
   *   buildable, buildingBlock, excluded, nonNull
   *                  the annotations present on the element
   *   enclosed       getEnclosedElements() of a class, in declaration order
   * The enclosing element is not part of the record: operations that need it take
   * it as a separate argument.
   */
  datatype Element = Element(
    kind: ElementKind,
    simpleName: string,
    display: string,
    typeString: string,
    modifiers: set<Modifier>,
    parameters: seq<Element>,
    returnsVoid: bool,
    constantValue: Option<string>,
    buildable: Option<BuildableAnnotation>,
    buildingBlock: bool,
    excluded: bool,
    nonNull: Option<NonNullAnnotation>,
    enclosed: seq<Element>)

  /**
   * An annotated element together with the element that encloses it (getEnclosingElement):
   * the class of a field or method, the outer class of a nested type, the package of a
   * top-level type.
   */
  datatype Member = Member(element: Element, enclosing: Element)

  /** Diagnostic.Kind, restricted to the kinds the core reports. */
  datatype DiagnosticKind = ERROR | WARNING

  datatype Diagnostic = Diagnostic(kind: DiagnosticKind, message: string)

  /** The host's Messager: it keeps every diagnostic printed to it, in order. */
  class Messager {
    var messages: seq<Diagnostic>

    constructor ()
      ensures messages == []
    {
      messages := [];
    }

    method PrintMessage(kind: DiagnosticKind, message: string)
      modifies this
      ensures messages == old(messages) + [Diagnostic(kind, message)]
    {
      messages := messages + [Diagnostic(kind, message)];
    }
  }
}
