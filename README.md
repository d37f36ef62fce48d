# Beelder builder synthesis, modelled in Dafny

Beelder is a Java annotation processor. For every class `X` annotated with `@Buildable` it writes a
class `XBuilder` that holds an instance of `X` in a private field `object`. Four handlers grow the
builder:

- **`BuildableHandler`** writes the skeleton. It sets the package and the `object` field, and adds one
  constructor bridge per usable constructor of `X`. Inaccessible constructors get a reflective bridge,
  and only when reflection is enabled.
- **`BuildingBlockHandler`** adds a fluent setter for each `@BuildingBlock` field and an invoker for each
  `@BuildingBlock` method. A setter either assigns directly, writes through reflection, or reuses the
  class's own `setX` method.
- **`NonNullHandler`** prepends a null guard to the setter or method of each `@NonNull` element. The
  guard applies one of five strategies.
- **`ClazzBuildingHandler`** adds the terminal `build()` method to every builder, and only once per run.

The generated code is held in a small intermediate representation. `Variable`, `Method`, `Clazz`,
`TryBlock` and `IfBlock` are mutable objects, each with a `build(depth)` renderer. The registry
`ClazzBuilder` maps builder names to `Clazz` objects and creates them on first use.

The model keeps that shape:

- Every IR entity is a Dafny `class` with the Java fields. Its methods carry `modifies` clauses.
- Each class has a value snapshot, `Decl()` (`VariableDecl`, `MethodDecl`, `ClazzDecl`, `TryDecl`,
  `IfDecl`). The rendering functions and the functions that describe each handler are written over these snapshots.
- Every handler is an imperative method over the registry. It is proved equal to a pure function of the
  old registry snapshot (`BuildableD`, `ElementD`/`RunD`, `GuardsD`, `BuildAllD`), and the diagnostics it
  appends are proved equal to a pure list.
- The properties the handlers promise are lemmas about those pure functions.

The javax element model is replaced by the `Host.Element` datatype. The compiler `Messager` is replaced
by `Host.Messager`, which records `(kind, text)` diagnostics. Files:

| file | module | contents |
|---|---|---|
| `wrappers.dfy` | `Wrappers` | `Option` |
| `constants.dfy` | `BeelderConstants` | `BeelderConstants` values and annotation names |
| `host.dfy` | `Host` | elements, modifiers, annotations, diagnostics, `Messager` |
| `strings.dfy` | `Strings` | the JDK and commons-lang string helpers the code calls |
| `string_builder_utils.dfy` | `StringBuilderUtils` | `indent` over a `StringBuilder` object |
| `beelder_utils.dfy` | `BeelderUtils` | `containsAny`/`containsNone`, modifier names, message format |
| `element_utils.dfy` | `ElementUtils` | names, type strings, builder names, setter names |
| `types.dfy` | `Types` | `Type`'s deduplicated modifier list, sequence helpers |
| `variable.dfy` | `Variables` | `Variable` |
| `method.dfy` | `Methods` | `Method` |
| `statements.dfy` | `Statements` | `StatementBuilder`, `TryBlock`, `IfBlock` |
| `clazz.dfy` | `Clazzes` | `Clazz` |
| `registry.dfy` | `Registry` | `ClazzBuilder` and the frame lemmas over it |
| `buildable_handler.dfy` | `BuildableHandlers` | `BuildableHandler` |
| `building_block_handler.dfy` | `BuildingBlockHandlers` | `BuildingBlockHandler` |
| `non_null_handler.dfy` | `NonNullHandlers` | `NonNullHandler` |
| `clazz_building_handler.dfy` | `ClazzBuildingHandlers` | `ClazzBuildingHandler` without the file writing |

Source paths below are under `processor/src/main/java/com/beelder/processor/` unless they start with
`annotations/`.

## Model

| member | source | states |
|---|---|---|
| StringBuilderUtils.Indent | processor/src/main/java/com/beelder/processor/utils/StringBuilderUtils.java:15-17 | returns the same builder, whose old text is kept and followed by exactly `repeat` tab characters; nothing is added for 0 |
| StringBuilderUtils.Tabs | processor/src/main/java/com/beelder/processor/utils/StringBuilderUtils.java:16 | `"\t".repeat(n)` has length n and holds only tabs |
| StringBuilderUtils.TabsAdd | processor/src/main/java/com/beelder/processor/utils/StringBuilderUtils.java:16 | indenting by a+b is indenting by a, then by b |
| StringBuilderUtils.StringBuilder.Append | processor/src/main/java/com/beelder/processor/utils/StringBuilderUtils.java:16 | `append` extends the buffer by the argument and returns the same builder |
| BeelderUtils.ContainsAny | processor/src/main/java/com/beelder/processor/utils/BeelderUtils.java:43-45 | true iff some checked element is in the collection, so false for an empty check list |
| BeelderUtils.ContainsNone | processor/src/main/java/com/beelder/processor/utils/BeelderUtils.java:30-32 | true iff no checked element is in the collection, the negation of containsAny |
| BeelderUtils.ContainsOfTwo | processor/src/main/java/com/beelder/processor/utils/BeelderUtils.java:30-45 | the two-argument forms the handlers use reduce to `a in col or b in col` and its negation |
| BeelderUtils.ModifierLowercaseIsLowercasedName | processor/src/main/java/com/beelder/processor/utils/BeelderUtils.java:51-53 | the rendered modifier is the enum constant's name lower-cased, for every modifier |
| BeelderUtils.ModifierLowercaseRoundTrip | processor/src/main/java/com/beelder/processor/utils/BeelderUtils.java:51-53 | upper-casing the rendered modifier gives back the enum name, so distinct modifiers render distinctly |
| BeelderUtils.ModififerToLowercase | processor/src/main/java/com/beelder/processor/utils/BeelderUtils.java:51-53 | a modifier renders as a non-empty run of lower-case letters |
| BeelderUtils.MessageText | processor/src/main/java/com/beelder/processor/utils/BeelderUtils.java:64-66 | the text opens with "<kind> <element> is annotated with @<annotation>, " and closes with "<suffix>!" |
| BeelderUtils.MessageElementAnnotatedWith | processor/src/main/java/com/beelder/processor/utils/BeelderUtils.java:64-66 | appends one diagnostic of the given kind whose text is "<kind> <element> is annotated with @<annotation>, <suffix>!" |
| BeelderUtils.EnclosingAnnotationShared | processor/src/main/java/com/beelder/processor/utils/BeelderUtils.java:77-83 | a member of a class and the class itself resolve to the same annotation |
| ElementUtils.GetBuilderNameFor | processor/src/main/java/com/beelder/processor/utils/ElementUtils.java:29-35 | the name is the class's simple name, or the enclosing class's for a member, followed by "Builder" |
| ElementUtils.MemberSharesBuilderName | processor/src/main/java/com/beelder/processor/utils/ElementUtils.java:29-35 | a field or method gets the builder name of the class that encloses it |
| ElementUtils.BuilderNameRoundTrip | processor/src/main/java/com/beelder/processor/utils/ElementUtils.java:29-35 | removing the "Builder" suffix from a builder name gives back the class's simple name |
| ElementUtils.GetElementType | processor/src/main/java/com/beelder/processor/utils/ElementUtils.java:17-23 | a non-method's type has no parentheses left, and a type without parentheses or "void" is kept as it is; a method's type without a parameter list is kept |
| ElementUtils.StripParensAndVoid | processor/src/main/java/com/beelder/processor/utils/ElementUtils.java:18-19 | the regex `[()]\|void` removal leaves no parenthesis and never lengthens the text |
| ElementUtils.StripKeepsCleanType | processor/src/main/java/com/beelder/processor/utils/ElementUtils.java:18-19 | a type without parentheses and without "void" is left unchanged |
| ElementUtils.StripExecutableType | processor/src/main/java/com/beelder/processor/utils/ElementUtils.java:18-19 | an executable's type "(args)void" becomes exactly "args" |
| ElementUtils.StripParameterListGivesReturnType | processor/src/main/java/com/beelder/processor/utils/ElementUtils.java:22 | removing the greedy `\(.*\)` span from "(P)R" leaves exactly the return type R |
| ElementUtils.MethodElementType | processor/src/main/java/com/beelder/processor/utils/ElementUtils.java:17-23 | a method typed "(P)R" with no ')' in R has element type exactly R |
| ElementUtils.StripDropsVoid | processor/src/main/java/com/beelder/processor/utils/ElementUtils.java:18-19 | a "void" reached by the scan is deleted, and the scan goes on right after it |
| ElementUtils.SetterMethodName | processor/src/main/java/com/beelder/processor/handler/BuildingBlockHandler.java:217-219 | the setter name is "set" followed by the simple name with its first letter upper-cased |
| Strings.SubstringBeforeLast | processor/src/main/java/com/beelder/processor/handler/BuildableHandler.java:50 | the text before the last '.', or the whole text when there is none |
| Strings.Capitalize | processor/src/main/java/com/beelder/processor/handler/BuildingBlockHandler.java:218 | only the first character is upper-cased |
| Types.WithModifier | processor/src/main/java/com/beelder/processor/classbuilder/entities/Type.java:45-49 | an absent (null) or already present modifier is ignored, any other is appended, and the list stays duplicate-free |
| Types.WithModifiers | processor/src/main/java/com/beelder/processor/classbuilder/entities/Type.java:56-58 | the old list is a prefix, the result holds exactly the old and the new modifiers, only missing ones are appended, and no duplicates arise |
| Types.WithModifiersOrder | processor/src/main/java/com/beelder/processor/classbuilder/entities/Type.java:56-58 | the appended modifiers keep their argument order |
| Types.WithModifiersPresent | processor/src/main/java/com/beelder/processor/classbuilder/entities/Type.java:45-58 | adding modifiers that are all present changes nothing |
| Types.WithModifiersIdempotent | processor/src/main/java/com/beelder/processor/classbuilder/entities/Type.java:56-58 | adding the same modifiers twice is adding them once |
| Types.RenderWithModifier | processor/src/main/java/com/beelder/processor/classbuilder/entities/Variable.java:43-44 | a newly added modifier renders as its lower-case name and one space after the existing ones |
| Variables.Variable.constructor | processor/src/main/java/com/beelder/processor/classbuilder/entities/Variable.java:25-30 | the two-argument constructor sets type and key, with no value and no modifiers |
| Variables.Variable.WithValue | processor/src/main/java/com/beelder/processor/classbuilder/entities/Variable.java:32-37 | the three-argument constructor also sets the value |
| Variables.Variable.SetKey | processor/src/main/java/com/beelder/processor/classbuilder/entities/Type.java:28-30 | only the key changes, to the given one |
| Variables.Variable.AddModifiers | processor/src/main/java/com/beelder/processor/classbuilder/entities/Type.java:56-58 | only the modifier list changes, as `WithModifiers` says |
| Variables.RenderVariable | processor/src/main/java/com/beelder/processor/classbuilder/entities/Variable.java:41-52 | the text starts with `depth` tabs and ends in " key" without a value, or in " = value" with one |
| Variables.RenderPlainVariable | processor/src/main/java/com/beelder/processor/classbuilder/entities/Variable.java:41-52 | a variable without modifiers or value at depth 0 renders as "type key" |
| Variables.From | processor/src/main/java/com/beelder/processor/classbuilder/entities/Variable.java:58-64 | a fresh variable with the element's type, qualified name and constant value, if any |
| Variables.RenamedParametersDistinct | processor/src/main/java/com/beelder/processor/handler/BuildingBlockHandler.java:178-181 | the renamed parameters have pairwise different names |
| Variables.ParamNameInjective | processor/src/main/java/com/beelder/processor/handler/BuildingBlockHandler.java:178-181 | different positions give different "paramN" names |
| Methods.Method.constructor | processor/src/main/java/com/beelder/processor/classbuilder/entities/Method.java:29-31 | a new method has return type "void", no modifiers, no parameters and no lines |
| Methods.Method.AddLine | processor/src/main/java/com/beelder/processor/classbuilder/entities/Method.java:65-67 | the line is appended and nothing else changes |
| Methods.Method.PrependLine | processor/src/main/java/com/beelder/processor/handler/NonNullHandler.java:89 | the line is inserted before the existing lines and nothing else changes |
| Methods.Method.AddReturnStatement | processor/src/main/java/com/beelder/processor/handler/BuildingBlockHandler.java:144 | appends "return x;" and nothing else changes |
| Methods.Method.SetReturnType | processor/src/main/java/com/beelder/processor/classbuilder/entities/Method.java:85-87 | overwrites the return type and nothing else |
| Methods.Method.AddModifier | processor/src/main/java/com/beelder/processor/classbuilder/entities/Type.java:45-49 | only the modifier list changes, as `WithModifier` says |
| Methods.Method.AddParameter | processor/src/main/java/com/beelder/processor/classbuilder/entities/Method.java:74-76 | re-adding the same object changes nothing; a new object adds exactly one parameter |
| Methods.Method.ParameterNum | processor/src/main/java/com/beelder/processor/classbuilder/entities/Method.java:81-83 | the count is the size of the parameter set and the number of rendered parameters |
| Methods.MethodHeader | processor/src/main/java/com/beelder/processor/classbuilder/entities/Method.java:45-50 | the header opens with the tabs, modifiers, return type, " ", key and "(", and ends with the parameters joined by ", " and ") {\n" |
| Methods.RenderMethod | processor/src/main/java/com/beelder/processor/classbuilder/entities/Method.java:35-58 | the rendering opens with the header and ends with the closing brace at `depth` tabs |
| Methods.RenderMethodHasLine | processor/src/main/java/com/beelder/processor/classbuilder/entities/Method.java:55-57 | every body line occurs in the rendering at depth+1 tabs, followed by a line break |
| Methods.Method.Build | processor/src/main/java/com/beelder/processor/classbuilder/entities/Method.java:35-58 | `build(depth)` of the object opens with the header of its snapshot and ends with the closing brace |
| Methods.HeaderWithoutParameters | processor/src/main/java/com/beelder/processor/classbuilder/entities/Method.java:45-50 | with no parameters the header is tabs, modifiers, return type, " ", key and "() {\n" |
| Methods.RenderNewMethod | processor/src/main/java/com/beelder/processor/classbuilder/entities/Method.java:35-58 | a new method renders as "void key() {\n" and a closing brace at the same depth |
| Methods.RenderLinesConcat | processor/src/main/java/com/beelder/processor/classbuilder/entities/Method.java:55-57 | the body of a concatenation is the concatenation of the bodies |
| Methods.RenderOneLine | processor/src/main/java/com/beelder/processor/classbuilder/entities/Method.java:55-57 | one body line renders at depth+1 tabs followed by a newline |
| Methods.RenderAppendedLine | processor/src/main/java/com/beelder/processor/classbuilder/entities/Method.java:55-67 | appending a line inserts its rendering just before the closing brace |
| Methods.RenderPrependedLine | processor/src/main/java/com/beelder/processor/classbuilder/entities/Method.java:50-57 | prepending a line inserts its rendering just after the header |
| Statements.CreateAssignment | processor/src/main/java/com/beelder/processor/classbuilder/entities/StatementBuilder.java:22-24 | the statement opens with "source.assign = ", closes with the right-hand side and ";", and adds exactly five characters |
| Statements.CreateMethodCall | processor/src/main/java/com/beelder/processor/classbuilder/entities/StatementBuilder.java:31-33 | the statement opens with "source.method(", closes with the arguments joined by ", " and ");", and adds exactly four characters |
| Statements.MethodCallWithoutArguments | processor/src/main/java/com/beelder/processor/classbuilder/entities/StatementBuilder.java:31-33 | a call without arguments is "source.method();" |
| Statements.TryBlock.constructor | processor/src/main/java/com/beelder/processor/classbuilder/entities/StatementBuilder.java:41-53 | a new try block has key "TRY", the given lines in order and no catch clauses |
| Statements.TryBlock.AddLine | processor/src/main/java/com/beelder/processor/classbuilder/entities/StatementBuilder.java:60-62 | appends a line to the try body and nothing else |
| Statements.AddToClause | processor/src/main/java/com/beelder/processor/classbuilder/entities/StatementBuilder.java:70-72 | the clause is created on first use, the line is appended to it, and the other clauses and the body are kept |
| Statements.TryBlock.AddLineToCatchClause | processor/src/main/java/com/beelder/processor/classbuilder/entities/StatementBuilder.java:70-72 | the new state is `AddToClause` of the old one |
| Statements.TryBlock.AddLineToCatchClauseOf | processor/src/main/java/com/beelder/processor/classbuilder/entities/StatementBuilder.java:81-83 | the clause key is the exception names joined with " \| " |
| Statements.RenderTry | processor/src/main/java/com/beelder/processor/classbuilder/entities/StatementBuilder.java:86-100 | the text opens with "try {\n" and, without catch clauses, ends with the try's closing brace at `depth` tabs |
| Statements.RenderTryHasLine | processor/src/main/java/com/beelder/processor/classbuilder/entities/StatementBuilder.java:87-89 | every line of the try body occurs in the text at depth+1 tabs, followed by a line break |
| Statements.RenderTryHasCatch | processor/src/main/java/com/beelder/processor/classbuilder/entities/StatementBuilder.java:91-97 | every catch clause in the order occurs in the text as " catch (K exc) {\n" |
| Statements.RenderTryWithoutCatch | processor/src/main/java/com/beelder/processor/classbuilder/entities/StatementBuilder.java:86-100 | with no catch clause the text is "try {\n", the lines at depth+1, then the closing brace |
| Statements.RenderTryOneCatch | processor/src/main/java/com/beelder/processor/classbuilder/entities/StatementBuilder.java:86-100 | one clause adds " catch (K exc) {\n", its lines and a closing brace |
| Statements.IfBlock.AddLine | processor/src/main/java/com/beelder/processor/handler/NonNullHandler.java:93-112 | appends a line to the guard body and nothing else |
| Clazzes.Clazz.constructor | processor/src/main/java/com/beelder/processor/classbuilder/entities/Clazz.java:37-39 | a new class has the key and no package, modifiers, variables, methods or constructors |
| Clazzes.RenderNewClazz | processor/src/main/java/com/beelder/processor/classbuilder/entities/Clazz.java:42-69 | a new class renders as "package null;", a blank line and "class K {" with an empty body |
| Clazzes.RenderClazzShape | processor/src/main/java/com/beelder/processor/classbuilder/entities/Clazz.java:42-69 | a class renders as its package line, blank line and header first, and "}" last |
| Clazzes.RenderClazzHasVariable | processor/src/main/java/com/beelder/processor/classbuilder/entities/Clazz.java:47-58 | every variable occurs rendered at depth+1, followed by ";\n" and `depth` tabs |
| Clazzes.RenderClazzHasConstructor | processor/src/main/java/com/beelder/processor/classbuilder/entities/Clazz.java:49-58 | every constructor occurs rendered at depth+1, followed by "\n\n" and `depth` tabs |
| Clazzes.RenderClazzHasMethod | processor/src/main/java/com/beelder/processor/classbuilder/entities/Clazz.java:50-58 | every stored method occurs rendered at depth+1, followed by "\n\n" and `depth` tabs |
| Clazzes.Clazz.Build | processor/src/main/java/com/beelder/processor/classbuilder/entities/Clazz.java:42-69 | `build(depth)` of the object opens with the package line and header of its snapshot and ends with "}" |
| Clazzes.Clazz.SetPackageIdent | processor/src/main/java/com/beelder/processor/classbuilder/entities/Clazz.java:131-133 | sets the package and nothing else |
| Clazzes.Clazz.AddConstructor | processor/src/main/java/com/beelder/processor/classbuilder/entities/Clazz.java:71-73 | appends the constructor without deduplication and nothing else |
| Clazzes.Clazz.FetchMethod | processor/src/main/java/com/beelder/processor/classbuilder/entities/Clazz.java:75-88 | returns the stored method for the key, or a fresh one that is then stored; afterwards containsMethod holds |
| Clazzes.FetchMethodD | processor/src/main/java/com/beelder/processor/classbuilder/entities/Clazz.java:86-88 | the key is present afterwards; a stored method is returned untouched; a missing one is added as a new empty void method and listed last; variables, constructors and the other methods are kept |
| Clazzes.FetchMethodKeepsOthers | processor/src/main/java/com/beelder/processor/classbuilder/entities/Clazz.java:86-88 | fetching leaves every other method, the variables and the constructors unchanged |
| Clazzes.AddVariableD | processor/src/main/java/com/beelder/processor/classbuilder/entities/Clazz.java:98-118 | only the variables change: at most one variable is appended, exactly when no variable had that key, and it is the given one |
| Clazzes.AddVariableKeepsKeysDistinct | processor/src/main/java/com/beelder/processor/classbuilder/entities/Clazz.java:98-118 | variable keys stay pairwise distinct and the added key is present |
| Clazzes.Clazz.AddVariable | processor/src/main/java/com/beelder/processor/classbuilder/entities/Clazz.java:98-107 | the new state is `AddVariableD` of a variable built from the arguments |
| Clazzes.Clazz.AddVariableObject | processor/src/main/java/com/beelder/processor/classbuilder/entities/Clazz.java:112-118 | the new state is `AddVariableD` of the given variable |
| Clazzes.Clazz.AnyVariableKeyed | processor/src/main/java/com/beelder/processor/classbuilder/entities/Clazz.java:99 | true iff some variable has the key |
| Clazzes.VariableFor | processor/src/main/java/com/beelder/processor/classbuilder/entities/Clazz.java:127-129 | a variable of the class with that key, or none exactly when there is no such variable |
| Clazzes.Clazz.GetVariableFor | processor/src/main/java/com/beelder/processor/classbuilder/entities/Clazz.java:127-129 | the loop finds what `VariableFor` specifies |
| Clazzes.Clazz.GetVariables | processor/src/main/java/com/beelder/processor/classbuilder/entities/Clazz.java:123-125 | the variables of the class |
| Clazzes.WithMethodD | processor/src/main/java/com/beelder/processor/classbuilder/entities/Clazz.java:86-88 | replacing one method's snapshot keeps the key set, the other methods and the rest of the class |
| Registry.ClazzBuilder.constructor | processor/src/main/java/com/beelder/processor/classbuilder/ClazzBuilder.java:23 | the registry starts empty |
| Registry.ClazzBuilder.GetRootForName | processor/src/main/java/com/beelder/processor/classbuilder/ClazzBuilder.java:32-34 | returns the stored class for the name, or stores and returns a fresh empty class keyed by the name; nothing is removed |
| Registry.RootD | processor/src/main/java/com/beelder/processor/classbuilder/ClazzBuilder.java:32-34 | a stored class comes back as it is, never replaced; for an unknown name the class is keyed by the name and has no package, variables, methods or constructors |
| Registry.WithRoot | processor/src/main/java/com/beelder/processor/classbuilder/ClazzBuilder.java:32-34 | the names only grow by the requested one and every stored class is kept |
| Registry.WithRootIdempotent | processor/src/main/java/com/beelder/processor/classbuilder/ClazzBuilder.java:33 | asking twice for the same name is asking once, and the second answer is the first class |
| Registry.ClazzBuilder.FetchAllClazzes | processor/src/main/java/com/beelder/processor/classbuilder/ClazzBuilder.java:39-41 | exactly the stored classes |
| BuildableHandlers.CheckClassMessages | processor/src/main/java/com/beelder/processor/handler/BuildableHandler.java:62-67 | one ERROR exactly when the class is abstract or private, otherwise nothing |
| BuildableHandlers.CheckClass | processor/src/main/java/com/beelder/processor/handler/BuildableHandler.java:62-67 | appends exactly `CheckClassMessages` |
| BuildableHandlers.CandidatesPartitioned | processor/src/main/java/com/beelder/processor/handler/BuildableHandler.java:75-81 | every non-excluded constructor is either accessible or inaccessible, never both, never lost |
| BuildableHandlers.ConstructorDiagnostics | processor/src/main/java/com/beelder/processor/handler/BuildableHandler.java:82-94 | with no accessible constructor and no reflection there is one ERROR and no bridge; otherwise only WARNINGs, and a WARNING iff some accessible constructor is public |
| BuildableHandlers.BridgesFromCandidates | processor/src/main/java/com/beelder/processor/handler/BuildableHandler.java:96-101 | one bridge per accessible constructor, plus one per inaccessible one under reflection, each from a non-excluded constructor |
| BuildableHandlers.BridgeOrigin | processor/src/main/java/com/beelder/processor/handler/BuildableHandler.java:76-101 | each bridge is the public or reflective bridge of some non-excluded constructor of the class |
| BuildableHandlers.PublicBridgeShape | processor/src/main/java/com/beelder/processor/handler/BuildableHandler.java:105-113 | key "", return type the builder, parameters param0..param(n-1) with the constructor's types and distinct names, body "this.object = new Q(param0, ...);" |
| BuildableHandlers.ReflectionBridgeShape | processor/src/main/java/com/beelder/processor/handler/BuildableHandler.java:116-135 | same parameters as the public bridge; the body is one try block of 4 lines with one catch clause over the 4 exceptions joined by " \| ", and its cast line forwards the parameters |
| BuildableHandlers.CreateMethodBase | processor/src/main/java/com/beelder/processor/handler/BuildableHandler.java:137-145 | a fresh method keyed "" returning the builder, with the renamed parameters |
| BuildableHandlers.AddRenamedParameters | processor/src/main/java/com/beelder/processor/handler/BuildableHandler.java:139-141 | appends the renamed parameters, numbered from the current parameter count |
| BuildableHandlers.AddPublicConstructorToClazz | processor/src/main/java/com/beelder/processor/handler/BuildableHandler.java:105-113 | appends exactly `PublicBridgeD` to the constructors |
| BuildableHandlers.AddReflectionConstructorToClazz | processor/src/main/java/com/beelder/processor/handler/BuildableHandler.java:116-135 | appends exactly `ReflectionBridgeD` to the constructors |
| BuildableHandlers.ReflectiveTry | processor/src/main/java/com/beelder/processor/handler/BuildableHandler.java:125-132 | the rendered try block is that of `ReflectiveTryD` |
| BuildableHandlers.AddConstructorsToClass | processor/src/main/java/com/beelder/processor/handler/BuildableHandler.java:73-102 | completes iff a @Buildable is found to read writeWithReflection from; then it appends `BridgesD` to the constructors and `ConstructorMessages` to the diagnostics, and otherwise changes nothing |
| BuildableHandlers.ReportConstructors | processor/src/main/java/com/beelder/processor/handler/BuildableHandler.java:82-94 | proceeds iff some constructor is accessible or reflection is on, and appends exactly `ConstructorMessages` |
| BuildableHandlers.SkeletonEffect | processor/src/main/java/com/beelder/processor/handler/BuildableHandler.java:49-53 | the skeleton (`SkeletonD`) puts the builder in the package before the last '.' of the qualified name, holds the `object` field, added at most once, keeps key and methods, and appends the bridges |
| BuildableHandlers.BuildableRegisters | processor/src/main/java/com/beelder/processor/handler/BuildableHandler.java:46-53 | one type (`BuildableD`) registers its builder, even after a checkClass ERROR, and no other class changes; a new builder starts without methods |
| BuildableHandlers.SkeletonsRegisterAll | processor/src/main/java/com/beelder/processor/handler/BuildableHandler.java:42-56 | a run fails iff some annotated type has no @Buildable to read the reflection flag from; the names grow only by the types' builders, and by all of them when the run completes |
| BuildableHandlers.SkeletonsStopAtFailure | processor/src/main/java/com/beelder/processor/handler/BuildableHandler.java:45-54 | once a type has thrown, the types after it change nothing |
| BuildableHandlers.SkeletonsFailedPrefix | processor/src/main/java/com/beelder/processor/handler/BuildableHandler.java:45-54 | a run whose type i throws equals the run of its first i+1 types |
| BuildableHandlers.ClassBuilder | processor/src/main/java/com/beelder/processor/utils/ElementUtils.java:29-35 | a class fills "<SimpleName>Builder" and takes the reflection flag from its own @Buildable |
| BuildableHandlers.NestedBuilder | processor/src/main/java/com/beelder/processor/handler/BuildableHandler.java:48-81 | an interface or enum fills the builder of its enclosing element, with that element's flag, and moves the builder to its own package; without @Buildable on the enclosing element it throws at line 81 after the package and `object` were written, with only checkClass's diagnostics |
| BuildableHandlers.HandleElement | processor/src/main/java/com/beelder/processor/handler/BuildableHandler.java:45-54 | completes iff a @Buildable is found for the flag; the registry becomes `BuildableD` of the old one and the diagnostics grow by `BuildableMessages`, also when it throws |
| BuildableHandlers.BuildSkeleton | processor/src/main/java/com/beelder/processor/handler/BuildableHandler.java:49-53 | the builder class becomes `SkeletonD` of its snapshot, with the constructor diagnostics |
| BuildableHandlers.HandleAnnotation | processor/src/main/java/com/beelder/processor/handler/BuildableHandler.java:42-56 | the registry and diagnostics are those of `SkeletonsD`, in element order, and it completes iff no type threw |
| BuildingBlockHandlers.FirstNamed | processor/src/main/java/com/beelder/processor/handler/BuildingBlockHandler.java:206-208 | the first enclosed element with the name, or none exactly when no element has it |
| BuildingBlockHandlers.FirstNamedAt | processor/src/main/java/com/beelder/processor/handler/BuildingBlockHandler.java:206-208 | the element at the first position with the name is the one found |
| BuildingBlockHandlers.LookForSetterMethod | processor/src/main/java/com/beelder/processor/handler/BuildingBlockHandler.java:206-208 | none exactly when no enclosed element has the name; otherwise an enclosed element with that name |
| BuildingBlockHandlers.GetSetterMethod | processor/src/main/java/com/beelder/processor/handler/BuildingBlockHandler.java:217-219 | "set" followed by the simple name, first letter upper-cased, three characters longer |
| BuildingBlockHandlers.EnclosingNotBuildableWarns | processor/src/main/java/com/beelder/processor/handler/BuildingBlockHandler.java:49-52 | an enclosing class without @Buildable gives one WARNING and leaves the registry unchanged |
| BuildingBlockHandlers.FinalOrStaticRejected | processor/src/main/java/com/beelder/processor/handler/BuildingBlockHandler.java:97-99 | a final or static field gives one ERROR and generates nothing |
| BuildingBlockHandlers.PublicSetterShape | processor/src/main/java/com/beelder/processor/handler/BuildingBlockHandler.java:194-204 | a new direct setter is "setX" with one parameter "param" of the field's type, returns the builder, and has the body "object.x = param;" then "return this;" |
| BuildingBlockHandlers.AssignLineText | processor/src/main/java/com/beelder/processor/handler/BuildingBlockHandler.java:200 | the direct assignment is "object.x = param;" |
| BuildingBlockHandlers.SetterEffect | processor/src/main/java/com/beelder/processor/handler/BuildingBlockHandler.java:139-144 | the setter method gets the return type, one more parameter, the line and "return this;"; all other methods, variables and constructors are kept |
| BuildingBlockHandlers.SetterTwice | processor/src/main/java/com/beelder/processor/handler/BuildingBlockHandler.java:197-203 | a second setter for the same field adds a parameter and two lines again; the rule is not idempotent |
| BuildingBlockHandlers.ReflectionBeforeSetterLookup | processor/src/main/java/com/beelder/processor/handler/BuildingBlockHandler.java:103-105 | an inaccessible field under writeWithReflection gets the reflective setter whatever the class encloses, with no diagnostic |
| BuildingBlockHandlers.ReflectiveSetterEffect | processor/src/main/java/com/beelder/processor/handler/BuildingBlockHandler.java:127-145 | with an `object` field, the setter writes through the reflective try block; without one, only the builder is registered |
| BuildingBlockHandlers.MissingSetterReported | processor/src/main/java/com/beelder/processor/handler/BuildingBlockHandler.java:106-111 | an inaccessible field without a setX method gives one ERROR and generates nothing |
| BuildingBlockHandlers.SetterHandledAsMethod | processor/src/main/java/com/beelder/processor/handler/BuildingBlockHandler.java:112-116 | otherwise the first element named setX is handled exactly as an annotated method |
| BuildingBlockHandlers.InaccessibleMethodRejected | processor/src/main/java/com/beelder/processor/handler/BuildingBlockHandler.java:160-164 | a private or protected method gives one ERROR and generates nothing |
| BuildingBlockHandlers.NonVoidWarnsAndProceeds | processor/src/main/java/com/beelder/processor/handler/BuildingBlockHandler.java:170-185 | a non-void method adds one WARNING and generates the same invoker as a void one |
| BuildingBlockHandlers.InvokerEffect | processor/src/main/java/com/beelder/processor/handler/BuildingBlockHandler.java:175-185 | the invoker keyed by the method's name returns the builder, adds the parameters renamed from the current count, and appends "object.m(params);" and "return this;"; other methods are kept |
| BuildingBlockHandlers.InvokerTwice | processor/src/main/java/com/beelder/processor/handler/BuildingBlockHandler.java:176-185 | a second invoker for the same name renumbers after the existing parameters and appends the call again |
| BuildingBlockHandlers.RenamedKeys | processor/src/main/java/com/beelder/processor/handler/BuildingBlockHandler.java:178-181 | parameters renamed from 0 are named param0..param(n-1) |
| BuildingBlockHandlers.RunStopsAtFailure | processor/src/main/java/com/beelder/processor/handler/BuildingBlockHandler.java:43-47 | once an element fails, the later elements change nothing |
| BuildingBlockHandlers.RunFailedPrefix | processor/src/main/java/com/beelder/processor/handler/BuildingBlockHandler.java:43-47 | a run that fails at element i equals the run of the first i+1 elements |
| BuildingBlockHandlers.ElementD | processor/src/main/java/com/beelder/processor/handler/BuildingBlockHandler.java:49-61 | one element removes no builder, adds at most its enclosing class's builder, and changes no other class |
| BuildingBlockHandlers.ElementMessages | processor/src/main/java/com/beelder/processor/handler/BuildingBlockHandler.java:49-61 | one element reports at most one diagnostic |
| BuildingBlockHandlers.RunMessagesBounded | processor/src/main/java/com/beelder/processor/handler/BuildingBlockHandler.java:43-47 | a run reports at most one diagnostic per element |
| BuildingBlockHandlers.ElementKeepsWellFormed | processor/src/main/java/com/beelder/processor/handler/BuildingBlockHandler.java:49-61 | one element keeps the registry well formed and adds at most its own builder |
| BuildingBlockHandlers.RunKeepsWellFormed | processor/src/main/java/com/beelder/processor/handler/BuildingBlockHandler.java:43-47 | a run keeps the registry well formed, and every new name is the builder of some element |
| BuildingBlockHandlers.BuildingBlockHandler.HandleAnnotation | processor/src/main/java/com/beelder/processor/handler/BuildingBlockHandler.java:43-47 | the loop's registry and messages are those of `RunD`, and it completes iff no element failed |
| BuildingBlockHandlers.BuildingBlockHandler.HandleAnnotatedElement | processor/src/main/java/com/beelder/processor/handler/BuildingBlockHandler.java:49-61 | the registry becomes `ElementD` of the old one, with the messages of `ElementMessages` |
| BuildingBlockHandlers.BuildingBlockHandler.CheckEnclosingClass | processor/src/main/java/com/beelder/processor/handler/BuildingBlockHandler.java:71-79 | true iff the enclosing class has @Buildable; otherwise one WARNING is appended |
| BuildingBlockHandlers.BuildingBlockHandler.HandleField | processor/src/main/java/com/beelder/processor/handler/BuildingBlockHandler.java:93-117 | the registry becomes `HandleFieldD` of the old one, with its messages |
| BuildingBlockHandlers.BuildingBlockHandler.AddReflectionSettingMethod | processor/src/main/java/com/beelder/processor/handler/BuildingBlockHandler.java:127-145 | the registry becomes `ReflectionSettingD`, and the call completes iff the builder holds an `object` field |
| BuildingBlockHandlers.BuildingBlockHandler.ReflectiveFieldTry | processor/src/main/java/com/beelder/processor/handler/BuildingBlockHandler.java:132-137 | the rendered try block is that of `ReflectiveFieldTryD` |
| BuildingBlockHandlers.BuildingBlockHandler.AddPublicVarAssign | processor/src/main/java/com/beelder/processor/handler/BuildingBlockHandler.java:194-204 | the builder becomes `PublicVarAssignD` of its old snapshot and nothing else changes |
| BuildingBlockHandlers.BuildingBlockHandler.AddSetter | processor/src/main/java/com/beelder/processor/handler/BuildingBlockHandler.java:139-144 | the class becomes `WithSetterD` of its old snapshot |
| BuildingBlockHandlers.BuildingBlockHandler.HandleMethod | processor/src/main/java/com/beelder/processor/handler/BuildingBlockHandler.java:155-186 | the registry becomes `HandleMethodD` of the old one, with its messages |
| BuildingBlockHandlers.BuildingBlockHandler.CheckMethod | processor/src/main/java/com/beelder/processor/handler/BuildingBlockHandler.java:160-173 | proceeds iff the method is accessible and executable, and appends exactly `HandleMethodMessages` |
| BuildingBlockHandlers.BuildingBlockHandler.AddInvoker | processor/src/main/java/com/beelder/processor/handler/BuildingBlockHandler.java:175-185 | the class becomes `WithInvokerD` of its old snapshot |
| NonNullHandlers.NullCheckInjective | processor/src/main/java/com/beelder/processor/handler/NonNullHandler.java:60-61 | different keys give different tests |
| NonNullHandlers.ConditionParts | processor/src/main/java/com/beelder/processor/handler/NonNullHandler.java:58-62 | the condition tests a key iff some parameter with that key has a non-primitive type |
| NonNullHandlers.ConditionEmpty | processor/src/main/java/com/beelder/processor/handler/NonNullHandler.java:58-66 | the condition is empty iff every parameter has a primitive type |
| NonNullHandlers.LongIsTested | processor/src/main/java/com/beelder/processor/constants/BeelderConstants.java:13-14 | a `long` parameter is null-tested, because "long" is not in the primitive set that the filter at NonNullHandler.java:58-62 consults |
| NonNullHandlers.GuardLines | processor/src/main/java/com/beelder/processor/handler/NonNullHandler.java:70-87 | THROW_EXC gives exactly the throw line; every other strategy ends with "return this;" |
| NonNullHandlers.GuardPrepended | processor/src/main/java/com/beelder/processor/handler/NonNullHandler.java:53-89 | the guard is put before the existing lines of the setter or method, whose parameters and other methods are unchanged; LOG_EXC adds the LOG field; with an empty condition nothing but the fetch happens |
| NonNullHandlers.GuardOnMissingMethod | processor/src/main/java/com/beelder/processor/handler/NonNullHandler.java:53-66 | a missing target method is created empty and left unguarded |
| NonNullHandlers.LoggerAddedOnce | processor/src/main/java/com/beelder/processor/handler/NonNullHandler.java:105-113 | the LOG field is present after a LOG_EXC guard, and variable keys stay distinct |
| NonNullHandlers.GuardTwice | processor/src/main/java/com/beelder/processor/handler/NonNullHandler.java:89 | a second guard goes in front of the first; guards are not deduplicated |
| NonNullHandlers.GuardWithoutBuildingBlock | processor/src/main/java/com/beelder/processor/handler/NonNullHandler.java:36-50 | a missing @BuildingBlock gives one ERROR, but the same guard is generated |
| NonNullHandlers.GuardMessagesErrors | processor/src/main/java/com/beelder/processor/handler/NonNullHandler.java:35-50 | all messages are ERRORs, at most one per element, and there are none iff every element has @BuildingBlock |
| NonNullHandlers.GuardElementD | processor/src/main/java/com/beelder/processor/handler/NonNullHandler.java:52-90 | one guard registers exactly its element's builder and changes no other class |
| NonNullHandlers.GuardsD | processor/src/main/java/com/beelder/processor/handler/NonNullHandler.java:35-41 | a run removes no builder |
| NonNullHandlers.GuardElementWellFormed | processor/src/main/java/com/beelder/processor/handler/NonNullHandler.java:52-90 | one guard keeps the registry well formed and registers the element's builder |
| NonNullHandlers.GuardsWellFormed | processor/src/main/java/com/beelder/processor/handler/NonNullHandler.java:35-41 | a run keeps the registry well formed and adds exactly the elements' builders |
| NonNullHandlers.NonNullHandler.HandleAnnotation | processor/src/main/java/com/beelder/processor/handler/NonNullHandler.java:35-41 | the loop's registry is `GuardsD` of the old one, and the messages are `GuardMessages` |
| NonNullHandlers.NonNullHandler.CheckAnnotatedField | processor/src/main/java/com/beelder/processor/handler/NonNullHandler.java:43-50 | appends one ERROR exactly when @BuildingBlock is missing |
| NonNullHandlers.NonNullHandler.HandleAnnotatedElement | processor/src/main/java/com/beelder/processor/handler/NonNullHandler.java:52-90 | the registry becomes `GuardElementD` of the old one |
| NonNullHandlers.NonNullHandler.AddGuard | processor/src/main/java/com/beelder/processor/handler/NonNullHandler.java:53-89 | the class becomes `NullGuardD` of its old snapshot |
| NonNullHandlers.NonNullHandler.BuildGuard | processor/src/main/java/com/beelder/processor/handler/NonNullHandler.java:68-88 | returns the guard text for the condition and strategy; only LOG_EXC changes the class |
| NonNullHandlers.NonNullHandler.HandleNoOp | processor/src/main/java/com/beelder/processor/handler/NonNullHandler.java:92-94 | appends "return this;" to the guard |
| NonNullHandlers.NonNullHandler.HandleThrowException | processor/src/main/java/com/beelder/processor/handler/NonNullHandler.java:96-98 | appends the throw of an IllegalArgumentException with the message |
| NonNullHandlers.NonNullHandler.HandlePrintTo | processor/src/main/java/com/beelder/processor/handler/NonNullHandler.java:100-103 | appends the println on the stream and "return this;" |
| NonNullHandlers.NonNullHandler.HandleLogException | processor/src/main/java/com/beelder/processor/handler/NonNullHandler.java:105-113 | adds the private static final LOG field unless present, and appends "LOG.error(msg)" and "return this;" |
| ClazzBuildingHandlers.ClazzBuildingHandler.CanHandle | processor/src/main/java/com/beelder/processor/handler/ClazzBuildingHandler.java:20-25 | true on the first call, false on every later one |
| ClazzBuildingHandlers.AddBuildMethodEffect | processor/src/main/java/com/beelder/processor/handler/ClazzBuildingHandler.java:37-47 | "build" always exists afterwards; without `object` it is only fetched (a new one stays void and empty); with `object` it returns the field's type, is public and ends in "return object;"; nothing else changes |
| ClazzBuildingHandlers.AddBuildMethodTwice | processor/src/main/java/com/beelder/processor/handler/ClazzBuildingHandler.java:44-46 | a second call adds PUBLIC only once but appends the return line again |
| ClazzBuildingHandlers.AddBuildMethodD | processor/src/main/java/com/beelder/processor/handler/ClazzBuildingHandler.java:37-47 | a "build" method exists afterwards, and key, variables and constructors are kept |
| ClazzBuildingHandlers.BuildAllD | processor/src/main/java/com/beelder/processor/handler/ClazzBuildingHandler.java:28-30 | the names are kept and every class gets `AddBuildMethodD` |
| ClazzBuildingHandlers.ClazzBuildingHandler.AddBuildMethodTo | processor/src/main/java/com/beelder/processor/handler/ClazzBuildingHandler.java:37-47 | the class becomes `AddBuildMethodD` of its old snapshot |
| ClazzBuildingHandlers.BuildAllWellFormed | processor/src/main/java/com/beelder/processor/handler/ClazzBuildingHandler.java:28-30 | adding build methods everywhere keeps the registry well formed |
| ClazzBuildingHandlers.ClazzBuildingHandler.HandleAnnotation | processor/src/main/java/com/beelder/processor/handler/ClazzBuildingHandler.java:28-30 | every registered class gets its build method, no class is added or removed, and the returned texts are each class's rendering |

## Left out

- File writing (`writeClazzToSourceFile`, `createSourceFile`) is left out. `ClazzBuildingHandler.HandleAnnotation` returns the source text of each class instead, and swallowed `IOException`s have no counterpart.
- slf4j logging calls are left out. They do not affect the generated code.
- The javax element and type API is replaced by the `Host.Element` datatype. `getEnclosedElements`, `getAnnotation`, `asType().toString()`, `getModifiers()` and `ElementUtils.asMethod` become fields and predicates on it, and a member's enclosing class is passed explicitly.
- The host `Messager` only records `(kind, text)`. The element a diagnostic is attached to is not kept.
- Hash collections keep insertion order in the model. These are `Method.parameters`, `Clazz.variables`, `Clazz.methods` and `TryBlock.catchClauses`. Java iterates them in hash order, which is unspecified. So where a lemma spells out rendered parameters, arguments or catch clauses in sequence, that sequence is one possible order; the membership and counts it states hold for every order.
- Several helpers the handlers call are not part of this model, so only a minimal version of each is given:
  - `createIfBlock`/`IfBlock`: a condition and a list of lines, rendered as `if (cond) {`, the lines and `}`.
  - `createExceptionThrowing`: `throw new E("msg");`.
  - `createAssignToMethodCall`: `source.assign = target.method(args);`.
  - `addReturnStatement(x)`: appends `return x;`.
  - `prependLine`: inserts at index 0.
  - `setterMethodFrom`: the same as `getSetterMethod`.

  No property depends on the exact text of these helpers beyond that.
- `PRIMITIVE_TYPES` is not part of this model. The guard condition uses the shown `primiteTypes` set, which lacks `long`. `LongIsTested` states the consequence.
- `StringUtils.capitalize`, `substringBeforeLast` and `toLowerCase`/`toUpperCase` are specified on ASCII letters. Unicode case mapping is left out.
- `NonNullHandler` is not registered in `BuilderProcessor` (BuilderProcessor.java:32-36). It is modelled as if it were invoked with the members annotated `@NonNull`. The processor wiring, the round loop and `IAnnotationHandler` are left out.
- `NonNullHandlers.NonNullHandler.HandleAnnotation` requires every member to carry `@NonNull` (`AllAnnotated`). The host only hands it such elements, and the source would dereference a null annotation otherwise.
- `BuildingBlockHandlers.BuildingBlockHandler.AddReflectionSettingMethod`: when the builder has no `object` field, the source throws a `NullPointerException`. The model returns `completed == false` instead, and `HandleAnnotation` stops processing further elements, as the exception would.
- `Registry.ClazzBuilder` is passed explicitly rather than being a process-wide singleton.
- Integer widths play no part; parameter counts and depths are unbounded naturals.
- The annotation declarations only supply defaults. The defaults of `@NonNull` ("Null argument found", THROW_EXC) are `Host.DefaultNonNull`.
- Behaviours of the source that the model keeps as they are:
  - `NonNullHandler` prepends each guard with `prependLine` (NonNullHandler.java:89) and never looks for an earlier one, so a second guard goes in front of the first (`GuardTwice`).
  - `handleMethod` warns about a non-void method and then adds its invoker all the same (BuildingBlockHandler.java:170-185); its Javadoc at lines 147-150 says "else adds this method" (`NonVoidWarnsAndProceeds`).
  - `checkAnnotatedField` only reports a missing `@BuildingBlock`; `handleAnnotation` goes on to `handleAnnotatedElement` (NonNullHandler.java:36-40, `GuardWithoutBuildingBlock`).
  - `addBuildMethodTo` fetches `build` before it looks for the `object` field, so a class without one still gets an empty `void build()` (ClazzBuildingHandler.java:38-42, `AddBuildMethodEffect`).
  - A `@Buildable` interface or enum whose enclosing element has no `@Buildable` (a top-level one, enclosed by its package) makes `fetchAnnotationForEnclosing` return null, and BuildableHandler.java:81 throws a `NullPointerException` after the builder was registered and its package and `object` field were written. The model returns `completed == false` at that point and `HandleAnnotation` stops there (`NestedBuilder`, `SkeletonsFailedPrefix`).
