/** The fixed names and type sets of the generated builders (BeelderConstants). */
module BeelderConstants {

  /** Java's primitive type names the null guard skips; "long" is not among them. */
  const PrimitiveTypes: set<string> := {"byte", "short", "int", "char", "double", "float", "boolean"}

  /** Suffix of every generated builder's name. */
  const BuildableClassSuffix := "Builder"

  /** Name of the builder's field holding the instance under construction. */
  const BuildableObjectName := "object"

  /** Name, and prefix of the positional names, of generated method parameters. */
  const SetterMethodParamName := "param"

  /** Name of the builder's terminal method. */
  const BuildMethodName := "build"

  /** Simple names of the annotations, used in diagnostics. */
  const BuildableSimpleName := "Buildable"
  const BuildingBlockSimpleName := "BuildingBlock"
  const NonNullSimpleName := "NonNull"
}
