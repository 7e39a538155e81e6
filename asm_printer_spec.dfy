/**
 * The printer as functions. Each Render function says what one visitor of the
 * printer returns when it is entered with expression depth `depth` and last
 * emitted location `last`, and what the last emitted location is when it
 * returns. The depth is not returned: every visitor restores it on every exit.
 * A failed assertion of the printer is an `Err` carrying which one failed; the
 * location emitted before it stays in `last`, as it does in the printer object.
 */
module AsmPrinterSpec {
  import opened Wrappers
  import opened Text
  import opened CommonData
  import opened YulAst

  /** The two type names of the dialect the printer consults. */
  datatype Dialect = Dialect(defaultType: string, boolType: string)

  /** What the printer is constructed with and never changes: the dialect (possibly none) and the source-index table. */
  datatype Env = Env(dialect: Option<Dialect>, nameToSourceIndex: map<string, nat>)

  /** The assertions the printer makes about the tree it prints. */
  datatype Failure =
    | InvalidNumberLiteral
    | InvalidBoolLiteral
    | InvalidIdentifier
    | InvalidVariableName
    | InvalidFunctionName
    | NoAssignmentTarget
    | InvalidIfCondition
    | InvalidSwitchExpression
    | InvalidForCondition

  /** A location comment and the last emitted location after it. */
  datatype Comment = Comment(text: string, last: Option<Location>)

  /** A rendering or the assertion that stopped it, and the last emitted location after it. */
  datatype Rendered = Rendered(text: Result<string, Failure>, last: Option<Location>)

  /** Block bodies shorter than this, on one line, are printed inline. */
  const BlockInlineLimit := 30

  /** `for` headers (init, condition and post together) shorter than this are printed on one line. */
  const ForHeaderInlineLimit := 60

  /**
   * `appendTypeName`: the `:type` suffix, or nothing when the type is empty or
   * the dialect makes the type implicit. Without a dialect nothing is elided.
   */
  function AppendTypeName(dialect: Option<Dialect>, typ: string, isBoolLiteral: bool): (r: string)
    ensures r == [] || r == ":" + typ
    ensures r == [] <==>
      typ == [] ||
      (dialect.Some? && !isBoolLiteral && typ == dialect.value.defaultType) ||
      (dialect.Some? && isBoolLiteral && typ == dialect.value.boolType && dialect.value.defaultType != [])
  {
    var t :=
      if dialect.Some? && typ != [] then
        if !isBoolLiteral && typ == dialect.value.defaultType then []
        else if isBoolLiteral && typ == dialect.value.boolType && dialect.value.defaultType != [] then []
        else typ
      else typ;
    if t == [] then [] else ":" + t
  }

  /** The `@src` payload: source index, start offset and end offset. */
  function SrcPayload(index: nat, loc: Location): string
  {
    NatToString(index) + ":" + IntToString(loc.start) + ":" + IntToString(loc.end)
  }

  /**
   * `formatSourceLocationComment`: nothing when there is no debug data, when the
   * location is the last one emitted, when the table is empty or does not know
   * the source; otherwise the comment in statement form (a `///` line comment
   * ending in a newline) or expression form (a block comment followed by a
   * space), and the location becomes the last emitted one.
   */
  function LocationComment(env: Env, last: Option<Location>, debugData: Option<Location>, statement: bool): (c: Comment)
    ensures c.text == [] <==> c.last == last
    ensures c.text != [] <==>
      debugData.Some? && debugData != last && debugData.value.sourceName in env.nameToSourceIndex
    ensures c.text != [] ==> c.last == debugData
  {
    if debugData.None? || last == debugData || |env.nameToSourceIndex| == 0 then Comment([], last)
    else if debugData.value.sourceName !in env.nameToSourceIndex then Comment([], last)
    else
      var payload := SrcPayload(env.nameToSourceIndex[debugData.value.sourceName], debugData.value);
      Comment((if statement then "/// @src " else "/** @src ") + payload + (if statement then "\n" else " */ "),
              debugData)
  }

  /** `text` prefixed to a successful rendering; a failure is kept as it is. */
  function Prepend(text: string, r: Rendered): Rendered
  {
    if r.text.Ok? then Rendered(Ok(text + r.text.value), r.last) else r
  }

  /** The delimiter before an `if` body: a space exactly when the body is on one line. */
  function IfDelimiter(body: string): (d: char)
  {
    if HasNewline(body) then '\n' else ' '
  }

  /** The delimiter between the parts of a `for` header. */
  function ForHeaderDelimiter(pre: string, condition: string, post: string): (d: char)
  {
    if |pre| + |condition| + |post| < ForHeaderInlineLimit && !HasNewline(pre) && !HasNewline(post) then ' ' else '\n'
  }

  /** The `for` header line: init, condition and post separated by the chosen delimiter. */
  function ForHeader(pre: string, condition: string, post: string): string
  {
    var d := ForHeaderDelimiter(pre, condition, post);
    "for " + pre + [d] + condition + [d] + post + "\n"
  }

  /** How a block reads back its joined statements from its layout (the inverse of BlockLayout). */
  function BlockContent(r: string): string
  {
    if |r| >= 4 && r[1] == ' ' then r[2..|r| - 2]
    else if |r| >= 8 then Dedent(r[6..|r| - 2])
    else []
  }

  /**
   * The layout of a non-empty block around its statements joined by newlines:
   * inline when short and on one line, otherwise one indented statement per line.
   */
  function BlockLayout(body: string): string
  {
    if |body| < BlockInlineLimit && !HasNewline(body) then "{ " + body + " }"
    else "{\n    " + Indent(body) + "\n}"
  }

  /**
   * A block's layout keeps its statements, which can be read back from it, and
   * it is on one line exactly when the joined statements are short and on one line.
   */
  lemma BlockLayoutReadsBack(body: string)
    ensures var r := BlockLayout(body); |r| >= 4 && r[0] == '{' && r[|r| - 1] == '}'
    ensures BlockContent(BlockLayout(body)) == body
    ensures !HasNewline(BlockLayout(body)) <==> |body| < BlockInlineLimit && !HasNewline(body)
  {
    var r := BlockLayout(body);
    if |body| < BlockInlineLimit && !HasNewline(body) {
      assert r[2..|r| - 2] == body;
      HasNewlineConcat("{ " + body, " }");
      HasNewlineConcat("{ ", body);
    } else {
      assert r[1] == '\n';
      assert r[6..|r| - 2] == Indent(body);
      DedentIndent(body);
    }
  }

  function RenderLiteral(env: Env, literal: Literal, depth: nat, last: Option<Location>): Rendered
  {
    var c := LocationComment(env, last, literal.debugData, depth == 0);
    match literal.kind
    case Number =>
      if IsValidDecimal(literal.value) || IsValidHex(literal.value) then
        Rendered(Ok(c.text + literal.value + AppendTypeName(env.dialect, literal.typ, false)), c.last)
      else Rendered(Err(InvalidNumberLiteral), c.last)
    case Boolean =>
      if literal.value == "true" || literal.value == "false" then
        Rendered(Ok(c.text + (if literal.value == "true" then "true" else "false")
                    + AppendTypeName(env.dialect, literal.typ, true)), c.last)
      else Rendered(Err(InvalidBoolLiteral), c.last)
    case String =>
      Rendered(Ok(c.text + EscapeAndQuoteString(literal.value) + AppendTypeName(env.dialect, literal.typ, false)), c.last)
  }

  function RenderIdentifier(env: Env, identifier: Identifier, depth: nat, last: Option<Location>): Rendered
  {
    if identifier.name == [] then Rendered(Err(InvalidIdentifier), last)
    else
      var c := LocationComment(env, last, identifier.debugData, depth == 0);
      Rendered(Ok(c.text + identifier.name), c.last)
  }

  /** `formatTypedName`: always with an expression-form comment. */
  function RenderTypedName(env: Env, variable: TypedName, last: Option<Location>): Rendered
  {
    if variable.name == [] then Rendered(Err(InvalidVariableName), last)
    else
      var c := LocationComment(env, last, variable.debugData, false);
      Rendered(Ok(c.text + variable.name + AppendTypeName(env.dialect, variable.typ, false)), c.last)
  }

  /** Typed names in order, joined by ", ". */
  function RenderTypedNames(env: Env, variables: seq<TypedName>, last: Option<Location>): Rendered
  {
    if |variables| == 0 then Rendered(Ok([]), last)
    else
      var prev := RenderTypedNames(env, variables[..|variables| - 1], last);
      if prev.text.Err? then prev
      else
        var sep := if |variables| == 1 then [] else ", ";
        Prepend(prev.text.value + sep, RenderTypedName(env, variables[|variables| - 1], prev.last))
  }

  /** Assignment targets in order, joined by ", ". */
  function RenderIdentifiers(env: Env, names: seq<Identifier>, depth: nat, last: Option<Location>): Rendered
  {
    if |names| == 0 then Rendered(Ok([]), last)
    else
      var prev := RenderIdentifiers(env, names[..|names| - 1], depth, last);
      if prev.text.Err? then prev
      else
        var sep := if |names| == 1 then [] else ", ";
        Prepend(prev.text.value + sep, RenderIdentifier(env, names[|names| - 1], depth, prev.last))
  }

  function RenderExpression(env: Env, e: Expression, depth: nat, last: Option<Location>): Rendered
    decreases e
  {
    match e
    case LiteralExpression(literal) => RenderLiteral(env, literal, depth, last)
    case IdentifierExpression(identifier) => RenderIdentifier(env, identifier, depth, last)
    case FunctionCall(debugData, functionName, arguments) =>
      var c := LocationComment(env, last, debugData, depth == 0);
      var f := RenderIdentifier(env, functionName, depth, c.last);
      if f.text.Err? then f
      else
        var args := RenderArguments(env, arguments, depth, f.last);
        if args.text.Err? then args
        else Rendered(Ok(c.text + f.text.value + "(" + args.text.value + ")"), args.last)
  }

  /** Call arguments in order, joined by ", ". */
  function RenderArguments(env: Env, arguments: seq<Expression>, depth: nat, last: Option<Location>): Rendered
    decreases arguments
  {
    if |arguments| == 0 then Rendered(Ok([]), last)
    else
      var prev := RenderArguments(env, arguments[..|arguments| - 1], depth, last);
      if prev.text.Err? then prev
      else
        var sep := if |arguments| == 1 then [] else ", ";
        Prepend(prev.text.value + sep, RenderExpression(env, arguments[|arguments| - 1], depth, prev.last))
  }

  function RenderStatement(env: Env, s: Statement, depth: nat, last: Option<Location>): Rendered
    decreases s, 2
  {
    match s
    case ExpressionStatement(debugData, expression) =>
      var c := LocationComment(env, last, debugData, true);
      Prepend(c.text, RenderExpression(env, expression, depth + 1, c.last))
    case Assignment(_, _, _) => RenderAssignment(env, s, depth, last)
    case VariableDeclaration(_, _, _) => RenderVariableDeclaration(env, s, depth, last)
    case FunctionDefinition(_, _, _, _, _) => RenderFunctionDefinition(env, s, depth, last)
    case If(_, _, _) => RenderIf(env, s, depth, last)
    case Switch(_, _, _) => RenderSwitch(env, s, depth, last)
    case ForLoop(_, _, _, _, _) => RenderForLoop(env, s, depth, last)
    case Break(debugData) =>
      var c := LocationComment(env, last, debugData, true);
      Rendered(Ok(c.text + "break"), c.last)
    case Continue(debugData) =>
      var c := LocationComment(env, last, debugData, true);
      Rendered(Ok(c.text + "continue"), c.last)
    case Leave(debugData) =>
      var c := LocationComment(env, last, debugData, true);
      Rendered(Ok(c.text + "leave"), c.last)
    case BlockStatement(block) => RenderBlock(env, block, depth, last)
  }

  /** The targets are printed at the caller's depth, before the assignment's own comment. */
  function RenderAssignment(env: Env, s: Statement, depth: nat, last: Option<Location>): Rendered
    requires s.Assignment?
    decreases s, 0
  {
    if |s.variableNames| == 0 then Rendered(Err(NoAssignmentTarget), last)
    else
      var vars := RenderIdentifiers(env, s.variableNames, depth, last);
      if vars.text.Err? then vars
      else
        var c := LocationComment(env, vars.last, s.debugData, true);
        Prepend(c.text + vars.text.value + " := ", RenderExpression(env, s.value, depth + 1, c.last))
  }

  function RenderVariableDeclaration(env: Env, s: Statement, depth: nat, last: Option<Location>): Rendered
    requires s.VariableDeclaration?
    decreases s, 0
  {
    var c := LocationComment(env, last, s.debugData, true);
    var vars := RenderTypedNames(env, s.variables, c.last);
    if vars.text.Err? then vars
    else if s.initialValue.None? then Rendered(Ok(c.text + "let " + vars.text.value), vars.last)
    else Prepend(c.text + "let " + vars.text.value + " := ", RenderExpression(env, s.initialValue.value, depth + 1, vars.last))
  }

  /** Parameters and return variables at the incremented depth; the body at the caller's. */
  function RenderFunctionDefinition(env: Env, s: Statement, depth: nat, last: Option<Location>): Rendered
    requires s.FunctionDefinition?
    decreases s, 0
  {
    if s.name == [] then Rendered(Err(InvalidFunctionName), last)
    else
      var c := LocationComment(env, last, s.debugData, true);
      var params := RenderTypedNames(env, s.parameters, c.last);
      if params.text.Err? then params
      else
        var head := c.text + "function " + s.name + "(" + params.text.value + ")";
        if |s.returnVariables| == 0 then Prepend(head + "\n", RenderBlock(env, s.body, depth, params.last))
        else
          var rets := RenderTypedNames(env, s.returnVariables, params.last);
          if rets.text.Err? then rets
          else Prepend(head + " -> " + rets.text.value + "\n", RenderBlock(env, s.body, depth, rets.last))
  }

  /**
   * The body is rendered twice: first, before the condition, only to choose the
   * delimiter; then, after the condition, for the text that is printed.
   */
  function RenderIf(env: Env, s: Statement, depth: nat, last: Option<Location>): Rendered
    requires s.If?
    decreases s, 0
  {
    if s.condition.None? then Rendered(Err(InvalidIfCondition), last)
    else
      var c := LocationComment(env, last, s.debugData, true);
      var probe := RenderBlock(env, s.body, depth, c.last);
      if probe.text.Err? then probe
      else
        var cond := RenderExpression(env, s.condition.value, depth + 1, probe.last);
        if cond.text.Err? then cond
        else Prepend(c.text + "if " + cond.text.value + [IfDelimiter(probe.text.value)],
                     RenderBlock(env, s.body, depth, cond.last))
  }

  function RenderSwitch(env: Env, s: Statement, depth: nat, last: Option<Location>): Rendered
    requires s.Switch?
    decreases s, 0
  {
    if s.selector.None? then Rendered(Err(InvalidSwitchExpression), last)
    else
      var c := LocationComment(env, last, s.debugData, true);
      var sel := RenderExpression(env, s.selector.value, depth + 1, c.last);
      if sel.text.Err? then sel
      else Prepend(c.text + "switch " + sel.text.value, RenderCases(env, s.cases, depth, sel.last))
  }

  /**
   * Everything a `for` loop prints before its body: the location comment and the
   * header line, with init, condition and post at the incremented depth.
   */
  function RenderForHeader(env: Env, s: Statement, depth: nat, last: Option<Location>): Rendered
    requires s.ForLoop?
    decreases s, 0
  {
    if s.condition.None? then Rendered(Err(InvalidForCondition), last)
    else
      var c := LocationComment(env, last, s.debugData, true);
      var p := RenderBlock(env, s.pre, depth + 1, c.last);
      if p.text.Err? then p
      else
        var cond := RenderExpression(env, s.condition.value, depth + 1, p.last);
        if cond.text.Err? then cond
        else
          var q := RenderBlock(env, s.post, depth + 1, cond.last);
          if q.text.Err? then q
          else Rendered(Ok(c.text + ForHeader(p.text.value, cond.text.value, q.text.value)), q.last)
  }

  /** The header, then the body at the caller's depth. */
  function RenderForLoop(env: Env, s: Statement, depth: nat, last: Option<Location>): Rendered
    requires s.ForLoop?
    decreases s, 1
  {
    var header := RenderForHeader(env, s, depth, last);
    if header.text.Err? then header
    else Prepend(header.text.value, RenderBlock(env, s.body, depth, header.last))
  }

  /** One switch case: `\ndefault ` or `\ncase <value> `, directly followed by its body. */
  function RenderCase(env: Env, cs: Case, depth: nat, last: Option<Location>): Rendered
    decreases cs, 1
  {
    if cs.value.None? then Prepend("\ndefault ", RenderBlock(env, cs.body, depth, last))
    else
      var v := RenderLiteral(env, cs.value.value, depth + 1, last);
      if v.text.Err? then v
      else Prepend("\ncase " + v.text.value + " ", RenderBlock(env, cs.body, depth, v.last))
  }

  /** Switch cases in order, without separator. */
  function RenderCases(env: Env, cases: seq<Case>, depth: nat, last: Option<Location>): Rendered
    decreases cases, 1
  {
    if |cases| == 0 then Rendered(Ok([]), last)
    else
      var prev := RenderCases(env, cases[..|cases| - 1], depth, last);
      if prev.text.Err? then prev
      else Prepend(prev.text.value, RenderCase(env, cases[|cases| - 1], depth, prev.last))
  }

  /** Statements in order, joined by newlines. */
  function RenderStatements(env: Env, statements: seq<Statement>, depth: nat, last: Option<Location>): Rendered
    decreases statements, 1
  {
    if |statements| == 0 then Rendered(Ok([]), last)
    else
      var prev := RenderStatements(env, statements[..|statements| - 1], depth, last);
      if prev.text.Err? then prev
      else
        var sep := if |statements| == 1 then [] else "\n";
        Prepend(prev.text.value + sep, RenderStatement(env, statements[|statements| - 1], depth, prev.last))
  }

  function RenderBlock(env: Env, block: Block, depth: nat, last: Option<Location>): Rendered
    decreases block, 1
  {
    var c := LocationComment(env, last, block.debugData, true);
    if |block.statements| == 0 then Rendered(Ok(c.text + "{ }"), c.last)
    else
      var body := RenderStatements(env, block.statements, depth, c.last);
      if body.text.Err? then body
      else Rendered(Ok(c.text + BlockLayout(body.text.value)), body.last)
  }

  // A failed assertion ends the rendering of a list: once a prefix fails, the
  // whole list fails with the same failure and the same last emitted location.

  lemma {:induction false} TypedNamesStopAtFailure(env: Env, variables: seq<TypedName>, n: nat, last: Option<Location>)
    requires n <= |variables|
    requires RenderTypedNames(env, variables[..n], last).text.Err?
    ensures RenderTypedNames(env, variables, last) == RenderTypedNames(env, variables[..n], last)
    decreases |variables|
  {
    if n < |variables| {
      var init := variables[..|variables| - 1];
      assert init[..n] == variables[..n];
      TypedNamesStopAtFailure(env, init, n, last);
    } else {
      assert variables[..n] == variables;
    }
  }

  lemma {:induction false} IdentifiersStopAtFailure(env: Env, names: seq<Identifier>, depth: nat, n: nat, last: Option<Location>)
    requires n <= |names|
    requires RenderIdentifiers(env, names[..n], depth, last).text.Err?
    ensures RenderIdentifiers(env, names, depth, last) == RenderIdentifiers(env, names[..n], depth, last)
    decreases |names|
  {
    if n < |names| {
      var init := names[..|names| - 1];
      assert init[..n] == names[..n];
      IdentifiersStopAtFailure(env, init, depth, n, last);
    } else {
      assert names[..n] == names;
    }
  }

  lemma {:induction false} ArgumentsStopAtFailure(env: Env, arguments: seq<Expression>, depth: nat, n: nat, last: Option<Location>)
    requires n <= |arguments|
    requires RenderArguments(env, arguments[..n], depth, last).text.Err?
    ensures RenderArguments(env, arguments, depth, last) == RenderArguments(env, arguments[..n], depth, last)
    decreases |arguments|
  {
    if n < |arguments| {
      var init := arguments[..|arguments| - 1];
      assert init[..n] == arguments[..n];
      ArgumentsStopAtFailure(env, init, depth, n, last);
    } else {
      assert arguments[..n] == arguments;
    }
  }

  lemma {:induction false} StatementsStopAtFailure(env: Env, statements: seq<Statement>, depth: nat, n: nat, last: Option<Location>)
    requires n <= |statements|
    requires RenderStatements(env, statements[..n], depth, last).text.Err?
    ensures RenderStatements(env, statements, depth, last) == RenderStatements(env, statements[..n], depth, last)
    decreases |statements|
  {
    if n < |statements| {
      var init := statements[..|statements| - 1];
      assert init[..n] == statements[..n];
      StatementsStopAtFailure(env, init, depth, n, last);
    } else {
      assert statements[..n] == statements;
    }
  }

  lemma {:induction false} CasesStopAtFailure(env: Env, cases: seq<Case>, depth: nat, n: nat, last: Option<Location>)
    requires n <= |cases|
    requires RenderCases(env, cases[..n], depth, last).text.Err?
    ensures RenderCases(env, cases, depth, last) == RenderCases(env, cases[..n], depth, last)
    decreases |cases|
  {
    if n < |cases| {
      var init := cases[..|cases| - 1];
      assert init[..n] == cases[..n];
      CasesStopAtFailure(env, init, depth, n, last);
    } else {
      assert cases[..n] == cases;
    }
  }

  // One more element of a list: how the rendering of a prefix extends.

  lemma TypedNamesSnoc(env: Env, variables: seq<TypedName>, i: nat, last: Option<Location>)
    requires i < |variables|
    ensures var prev := RenderTypedNames(env, variables[..i], last);
      RenderTypedNames(env, variables[..i + 1], last)
      == if prev.text.Err? then prev
         else Prepend(prev.text.value + (if i == 0 then [] else ", "), RenderTypedName(env, variables[i], prev.last))
  {
    assert variables[..i + 1][..i] == variables[..i];
  }

  lemma IdentifiersSnoc(env: Env, names: seq<Identifier>, depth: nat, i: nat, last: Option<Location>)
    requires i < |names|
    ensures var prev := RenderIdentifiers(env, names[..i], depth, last);
      RenderIdentifiers(env, names[..i + 1], depth, last)
      == if prev.text.Err? then prev
         else Prepend(prev.text.value + (if i == 0 then [] else ", "), RenderIdentifier(env, names[i], depth, prev.last))
  {
    assert names[..i + 1][..i] == names[..i];
  }

  lemma ArgumentsSnoc(env: Env, arguments: seq<Expression>, depth: nat, i: nat, last: Option<Location>)
    requires i < |arguments|
    ensures var prev := RenderArguments(env, arguments[..i], depth, last);
      RenderArguments(env, arguments[..i + 1], depth, last)
      == if prev.text.Err? then prev
         else Prepend(prev.text.value + (if i == 0 then [] else ", "), RenderExpression(env, arguments[i], depth, prev.last))
  {
    assert arguments[..i + 1][..i] == arguments[..i];
  }

  lemma StatementsSnoc(env: Env, statements: seq<Statement>, depth: nat, i: nat, last: Option<Location>)
    requires i < |statements|
    ensures var prev := RenderStatements(env, statements[..i], depth, last);
      RenderStatements(env, statements[..i + 1], depth, last)
      == if prev.text.Err? then prev
         else Prepend(prev.text.value + (if i == 0 then [] else "\n"), RenderStatement(env, statements[i], depth, prev.last))
  {
    assert statements[..i + 1][..i] == statements[..i];
  }

  lemma CasesSnoc(env: Env, cases: seq<Case>, depth: nat, i: nat, last: Option<Location>)
    requires i < |cases|
    ensures var prev := RenderCases(env, cases[..i], depth, last);
      RenderCases(env, cases[..i + 1], depth, last)
      == if prev.text.Err? then prev else Prepend(prev.text.value, RenderCase(env, cases[i], depth, prev.last))
  {
    assert cases[..i + 1][..i] == cases[..i];
  }
}
