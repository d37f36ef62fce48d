/** StatementBuilder: single-line statements, try blocks and if blocks of generated code. */
module Statements {

  import opened Strings
  import opened StringBuilderUtils
  import opened Types
  import opened Methods

  /**
   * createAssignment: "source.assign = to;". The text starts with the assigned target and
   * " = ", ends with the right-hand side and ';', and holds nothing else.
   */
  function CreateAssignment(source: string, assign: string, to: string): (r: string)
    ensures StartsWith(r, source + "." + assign + " = ") && EndsWith(r, to + ";")
    ensures |r| == |source| + |assign| + |to| + 5
  {
    var lhs := source + "." + assign + " = ";
    ConcatEnds(lhs, to + ";");
    assert lhs + (to + ";") == lhs + to + ";";
    lhs + to + ";"
  }

  /**
   * createMethodCall: "source.method(p0, p1, ...);". The text starts with the callee and
   * "(", ends with the arguments joined by ", " and ");", and holds nothing else.
   */
  function CreateMethodCall(source: string, methodName: string, params: seq<string>): (r: string)
    ensures StartsWith(r, source + "." + methodName + "(") && EndsWith(r, Join(params, ", ") + ");")
    ensures |r| == |source| + |methodName| + |Join(params, ", ")| + 4
  {
    ConcatThree(source + "." + methodName + "(", Join(params, ", "), ");");
    source + "." + methodName + "(" + Join(params, ", ") + ");"
  }

  /** A call without arguments has an empty argument list. */
  lemma MethodCallWithoutArguments(source: string, methodName: string)
    ensures CreateMethodCall(source, methodName, []) == source + "." + methodName + "();"
  {
  }

  /**
   * createAssignToMethodCall: "source.assign = target.method(p0, p1, ...);". The helper is
   * not part of this model's sources; this is the statement its name and call site describe.
   */
  function CreateAssignToMethodCall(source: string, assign: string, target: string, methodName: string,
                                    params: seq<string>): string {
    CreateAssignment(source, assign, target + "." + methodName + "(" + Join(params, ", ") + ")")
  }

  /**
   * createExceptionThrowing: a statement throwing a new exception of the given class with
   * the message. The helper is not part of this model's sources; its text is assumed.
   */
  function CreateExceptionThrowing(exceptionClass: string, message: string): string {
    "throw new " + exceptionClass + "(\"" + message + "\");"
  }

  /** The state of one TryBlock: body lines and the catch clauses keyed by the caught types. */
  datatype TryDecl = TryDecl(lines: seq<string>, catchClauses: map<string, seq<string>>, catchOrder: seq<string>)

  /** Every catch clause in `keys`, each " catch (K exc) {\n", its lines, and the closing brace. */
  function RenderCatches(clauses: map<string, seq<string>>, keys: seq<string>, depth: nat): (r: string)
    requires forall k :: k in keys ==> k in clauses
    ensures keys == [] ==> r == ""
  {
    if keys == [] then ""
    else
      var k := keys[0];
      " catch (" + k + " exc) {\n" + RenderLines(clauses[k], depth + 1) + Tabs(depth) + "}"
        + RenderCatches(clauses, keys[1..], depth)
  }

  /**
   * TryBlock.build(depth): "try {", the lines one level deeper, the closing brace, then the
   * catch clauses; without clauses the text ends with the try's closing brace.
   */
  function RenderTry(d: TryDecl, depth: nat): (r: string)
    requires forall k :: k in d.catchOrder ==> k in d.catchClauses
    ensures StartsWith(r, "try {\n")
    ensures d.catchOrder == [] ==> EndsWith(r, Tabs(depth) + "}")
  {
    var catches := RenderCatches(d.catchClauses, d.catchOrder, depth);
    ConcatFour("try {\n", RenderLines(d.lines, depth + 1), Tabs(depth), "}");
    PrefixKept("try {\n" + RenderLines(d.lines, depth + 1) + Tabs(depth) + "}", catches, "try {\n");
    var tryPart := "try {\n" + RenderLines(d.lines, depth + 1) + Tabs(depth) + "}";
    assert catches == [] ==> tryPart + catches == tryPart;
    "try {\n" + RenderLines(d.lines, depth + 1) + Tabs(depth) + "}" + catches
  }

  /** Every line of the try part occurs in the text one level deeper, followed by a line break. */
  lemma RenderTryHasLine(d: TryDecl, depth: nat, i: nat)
    requires forall k :: k in d.catchOrder ==> k in d.catchClauses
    requires i < |d.lines|
    ensures Occurs(RenderTry(d, depth), Tabs(depth + 1) + d.lines[i] + "\n")
  {
    var body := RenderLines(d.lines, depth + 1);
    var after := Tabs(depth) + "}" + RenderCatches(d.catchClauses, d.catchOrder, depth);
    RenderLinesHas(d.lines, depth + 1, i);
    assert RenderTry(d, depth) == "try {\n" + body + after;
    OccursWithin("try {\n", body, after, Tabs(depth + 1) + d.lines[i] + "\n");
  }

  /** Every catch clause opens with " catch (K exc) {" in the text. */
  lemma {:induction false} RenderCatchesHas(clauses: map<string, seq<string>>, keys: seq<string>, depth: nat, i: nat)
    requires forall k :: k in keys ==> k in clauses
    requires i < |keys|
    ensures Occurs(RenderCatches(clauses, keys, depth), " catch (" + keys[i] + " exc) {\n")
  {
    var k := keys[0];
    var head := " catch (" + k + " exc) {\n";
    var lines, tabs := RenderLines(clauses[k], depth + 1), Tabs(depth);
    var clause := head + lines + tabs + "}";
    var more := RenderCatches(clauses, keys[1..], depth);
    assert RenderCatches(clauses, keys, depth) == clause + more;
    if i == 0 {
      OccursWhole(head);
      OccursBefore(head, lines, head);
      OccursBefore(head + lines, tabs, head);
      OccursBefore(head + lines + tabs, "}", head);
      OccursBefore(clause, more, head);
    } else {
      RenderCatchesHas(clauses, keys[1..], depth, i - 1);
      OccursAfter(clause, more, " catch (" + keys[i] + " exc) {\n");
    }
  }

  /** Every catch clause of the block is rendered after the try part. */
  lemma RenderTryHasCatch(d: TryDecl, depth: nat, i: nat)
    requires forall k :: k in d.catchOrder ==> k in d.catchClauses
    requires i < |d.catchOrder|
    ensures Occurs(RenderTry(d, depth), " catch (" + d.catchOrder[i] + " exc) {\n")
  {
    var before := "try {\n" + RenderLines(d.lines, depth + 1) + Tabs(depth) + "}";
    var catches := RenderCatches(d.catchClauses, d.catchOrder, depth);
    RenderCatchesHas(d.catchClauses, d.catchOrder, depth, i);
    assert RenderTry(d, depth) == before + catches + "";
    OccursWithin(before, catches, "", " catch (" + d.catchOrder[i] + " exc) {\n");
  }

  /** With no catch clause the text ends with the try's closing brace. */
  lemma RenderTryWithoutCatch(lines: seq<string>, depth: nat)
    ensures RenderTry(TryDecl(lines, map[], []), depth) == "try {\n" + RenderLines(lines, depth + 1) + Tabs(depth) + "}"
  {
  }

  /** With one catch clause K the text is the try part followed by " catch (K exc) {", its lines and "}". */
  lemma RenderTryOneCatch(lines: seq<string>, k: string, catchLines: seq<string>, depth: nat)
    ensures RenderTry(TryDecl(lines, map[k := catchLines], [k]), depth)
         == "try {\n" + RenderLines(lines, depth + 1) + Tabs(depth) + "}"
            + " catch (" + k + " exc) {\n" + RenderLines(catchLines, depth + 1) + Tabs(depth) + "}"
  {
    assert [k][1..] == [];
  }

  /** Adding `line` to clause `catches`, creating the clause on first use. */
  function AddToClause(d: TryDecl, line: string, catches: string): (r: TryDecl)
    ensures r.lines == d.lines
    ensures catches in r.catchClauses
    ensures r.catchClauses[catches] == (if catches in d.catchClauses then d.catchClauses[catches] else []) + [line]
    ensures forall k :: k in d.catchClauses && k != catches ==> k in r.catchClauses && r.catchClauses[k] == d.catchClauses[k]
    ensures r.catchClauses.Keys == d.catchClauses.Keys + {catches}
  {
    if catches in d.catchClauses then
      d.(catchClauses := d.catchClauses[catches := d.catchClauses[catches] + [line]])
    else
      d.(catchClauses := d.catchClauses[catches := [line]], catchOrder := d.catchOrder + [catches])
  }

  /** A TryBlock in place: its lines and catch clauses grow as the generator adds to them. */
  class TryBlock {
    const key: string
    var lines: seq<string>
    var catchClauses: map<string, seq<string>>
    /** The order in which the clauses were first used; the source keeps them in a HashMap. */
    var catchOrder: seq<string>

    /** createTryBlock(lines...): a try block with the given lines and no catch clause. */
    constructor (lines: seq<string>)
      ensures Valid()
      ensures key == "TRY"
      ensures Decl() == TryDecl(lines, map[], [])
    {
      key := "TRY";
      this.lines := lines;
      catchClauses := map[];
      catchOrder := [];
    }

    /** Every clause key occurs once in the clause order, and every key in it has a clause. */
    ghost predicate Valid()
      reads this
    {
      NoDuplicates(catchOrder) && (forall k :: k in catchOrder <==> k in catchClauses)
    }

    function Decl(): TryDecl
      reads this
    {
      TryDecl(lines, catchClauses, catchOrder)
    }

    /** addLine: appends one line to the try part. */
    method AddLine(line: string)
      requires Valid()
      modifies this
      ensures Valid()
      ensures Decl() == old(Decl()).(lines := old(lines) + [line])
    {
      lines := lines + [line];
    }

    /** addLineToCatchClause(line, catches): appends `line` to clause `catches`, creating it if needed. */
    method AddLineToCatchClause(line: string, catches: string)
      requires Valid()
      modifies this
      ensures Valid()
      ensures Decl() == AddToClause(old(Decl()), line, catches)
    {
      if catches in catchClauses {
        catchClauses := catchClauses[catches := catchClauses[catches] + [line]];
      } else {
        catchClauses := catchClauses[catches := [line]];
        catchOrder := catchOrder + [catches];
      }
    }

    /** addLineToCatchClause(line, catches...): the clause is keyed by the names joined with " | ". */
    method AddLineToCatchClauseOf(line: string, catches: seq<string>)
      requires Valid()
      modifies this
      ensures Valid()
      ensures Decl() == AddToClause(old(Decl()), line, Join(catches, " | "))
    {
      AddLineToCatchClause(line, Join(catches, " | "));
    }

    /** TryBlock.build(depth). */
    function Build(depth: nat := 0): string
      requires Valid()
      reads this
    {
      RenderTry(Decl(), depth)
    }
  }

  /** The state of one IfBlock: the condition and the guarded lines. */
  datatype IfDecl = IfDecl(condition: string, lines: seq<string>)

  /**
   * IfBlock.build(depth): "if (condition) {\n", the lines one level deeper, and the
   * closing brace. The IfBlock class is not part of this model's sources; its text is
   * assumed to follow TryBlock's.
   */
  function RenderIf(d: IfDecl, depth: nat): string {
    "if (" + d.condition + ") {\n" + RenderLines(d.lines, depth + 1) + Tabs(depth) + "}"
  }

  class IfBlock {
    const condition: string
    var lines: seq<string>

    /** createIfBlock(condition): an if block with no lines. */
    constructor (condition: string)
      ensures Decl() == IfDecl(condition, [])
    {
      this.condition := condition;
      lines := [];
    }

    function Decl(): IfDecl
      reads this
    {
      IfDecl(condition, lines)
    }

    /** addLine: appends one guarded line. */
    method AddLine(line: string)
      modifies this
      ensures Decl() == old(Decl()).(lines := old(lines) + [line])
    {
      lines := lines + [line];
    }

    function Build(depth: nat := 0): string
      reads this
    {
      RenderIf(Decl(), depth)
    }
  }
}
