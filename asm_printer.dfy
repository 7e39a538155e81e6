/**
 * The printer object: one method per visitor of the Yul AST. It keeps the two
 * pieces of state of the original, the expression depth and the last emitted
 * source location, and each method is proved to return, and leave behind, what
 * the functions of AsmPrinterSpec describe for the state it was entered in.
 */
module AsmPrinter {
  import opened Wrappers
  import opened Text
  import opened CommonData
  import opened YulAst
  import opened AsmPrinterSpec

  /** Replaces every "\n" of `s` by "\n    " (`boost::replace_all`), left to right. */
  method IndentNewlines(s: string) returns (r: string)
    ensures r == Indent(s)
  {
    r := [];
    var i := 0;
    while i < |s|
      invariant 0 <= i <= |s|
      invariant r == Indent(s[..i])
    {
      IndentSnoc(s[..i], s[i]);
      assert s[..i + 1] == s[..i] + [s[i]];
      r := r + IndentChar(s[i]);
      i := i + 1;
    }
    assert s[..i] == s;
  }

  class Printer {
    /** The dialect and the source-index table, fixed at construction. */
    const env: Env
    /** How many expression contexts enclose the node being printed (`m_insideExpression`). */
    var depth: nat
    /** The location of the last emitted comment (`m_lastLocation`). */
    var lastLocation: Option<Location>

    constructor (dialect: Option<Dialect>, nameToSourceIndex: map<string, nat>)
      ensures env == Env(dialect, nameToSourceIndex)
      ensures depth == 0 && lastLocation == None
    {
      env := Env(dialect, nameToSourceIndex);
      depth := 0;
      lastLocation := None;
    }

    method FormatSourceLocationComment(debugData: Option<Location>, statement: bool) returns (s: string)
      modifies this`lastLocation
      ensures Comment(s, lastLocation) == LocationComment(env, old(lastLocation), debugData, statement)
    {
      if debugData.None? || lastLocation == debugData || |env.nameToSourceIndex| == 0 {
        return [];
      }
      var location := debugData.value;
      if location.sourceName !in env.nameToSourceIndex {
        return [];
      }
      lastLocation := debugData;
      s := (if statement then "/// @src " else "/** @src ") +
        NatToString(env.nameToSourceIndex[location.sourceName]) + ":" +
        IntToString(location.start) + ":" + IntToString(location.end) +
        (if statement then "\n" else " */ ");
    }

    method VisitLiteral(literal: Literal) returns (r: Result<string, Failure>)
      modifies this`lastLocation
      ensures Rendered(r, lastLocation) == RenderLiteral(env, literal, depth, old(lastLocation))
    {
      var comment := FormatSourceLocationComment(literal.debugData, depth == 0);
      match literal.kind
      case Number =>
        if !(IsValidDecimal(literal.value) || IsValidHex(literal.value)) {
          return Err(InvalidNumberLiteral);
        }
        r := Ok(comment + literal.value + AppendTypeName(env.dialect, literal.typ, false));
      case Boolean =>
        if !(literal.value == "true" || literal.value == "false") {
          return Err(InvalidBoolLiteral);
        }
        r := Ok(comment + (if literal.value == "true" then "true" else "false") +
                AppendTypeName(env.dialect, literal.typ, true));
      case String =>
        r := Ok(comment + EscapeAndQuoteString(literal.value) + AppendTypeName(env.dialect, literal.typ, false));
    }

    method VisitIdentifier(identifier: Identifier) returns (r: Result<string, Failure>)
      modifies this`lastLocation
      ensures Rendered(r, lastLocation) == RenderIdentifier(env, identifier, depth, old(lastLocation))
    {
      if identifier.name == [] {
        return Err(InvalidIdentifier);
      }
      var comment := FormatSourceLocationComment(identifier.debugData, depth == 0);
      r := Ok(comment + identifier.name);
    }

    method FormatTypedName(variable: TypedName) returns (r: Result<string, Failure>)
      modifies this`lastLocation
      ensures Rendered(r, lastLocation) == RenderTypedName(env, variable, old(lastLocation))
    {
      if variable.name == [] {
        return Err(InvalidVariableName);
      }
      var comment := FormatSourceLocationComment(variable.debugData, false);
      r := Ok(comment + variable.name + AppendTypeName(env.dialect, variable.typ, false));
    }

    /** The typed names joined by ", " (the `join` over `formatTypedName` of the declarations). */
    method FormatTypedNames(variables: seq<TypedName>) returns (r: Result<string, Failure>)
      modifies this`lastLocation
      ensures Rendered(r, lastLocation) == RenderTypedNames(env, variables, old(lastLocation))
    {
      var out := [];
      for i := 0 to |variables|
        invariant RenderTypedNames(env, variables[..i], old(lastLocation)) == Rendered(Ok(out), lastLocation)
      {
        TypedNamesSnoc(env, variables, i, old(lastLocation));
        var x := FormatTypedName(variables[i]);
        if x.Err? {
          TypedNamesStopAtFailure(env, variables, i + 1, old(lastLocation));
          return x;
        }
        out := out + (if i == 0 then [] else ", ") + x.value;
      }
      assert variables[..|variables|] == variables;
      r := Ok(out);
    }

    method VisitExpression(e: Expression) returns (r: Result<string, Failure>)
      modifies this
      ensures depth == old(depth)
      ensures Rendered(r, lastLocation) == RenderExpression(env, e, old(depth), old(lastLocation))
      decreases e, 1
    {
      match e
      case LiteralExpression(literal) => r := VisitLiteral(literal);
      case IdentifierExpression(identifier) => r := VisitIdentifier(identifier);
      case FunctionCall(_, _, _) => r := VisitFunctionCall(e);
    }

    method VisitFunctionCall(call: Expression) returns (r: Result<string, Failure>)
      requires call.FunctionCall?
      modifies this
      ensures depth == old(depth)
      ensures Rendered(r, lastLocation) == RenderExpression(env, call, old(depth), old(lastLocation))
      decreases call, 0
    {
      var comment := FormatSourceLocationComment(call.debugData, depth == 0);
      var functionName := VisitIdentifier(call.functionName);
      if functionName.Err? {
        return functionName;
      }
      ghost var start := lastLocation;
      var arguments := call.arguments;
      var out := [];
      for i := 0 to |arguments|
        invariant depth == old(depth)
        invariant RenderArguments(env, arguments[..i], depth, start) == Rendered(Ok(out), lastLocation)
      {
        ArgumentsSnoc(env, arguments, depth, i, start);
        var x := VisitExpression(arguments[i]);
        if x.Err? {
          ArgumentsStopAtFailure(env, arguments, depth, i + 1, start);
          return x;
        }
        out := out + (if i == 0 then [] else ", ") + x.value;
      }
      assert arguments[..|arguments|] == arguments;
      r := Ok(comment + functionName.value + "(" + out + ")");
    }

    method VisitStatement(s: Statement) returns (r: Result<string, Failure>)
      modifies this
      ensures depth == old(depth)
      ensures Rendered(r, lastLocation) == RenderStatement(env, s, old(depth), old(lastLocation))
      decreases s, 2
    {
      match s
      case ExpressionStatement(_, _) => r := VisitExpressionStatement(s);
      case Assignment(_, _, _) => r := VisitAssignment(s);
      case VariableDeclaration(_, _, _) => r := VisitVariableDeclaration(s);
      case FunctionDefinition(_, _, _, _, _) => r := VisitFunctionDefinition(s);
      case If(_, _, _) => r := VisitIf(s);
      case Switch(_, _, _) => r := VisitSwitch(s);
      case ForLoop(_, _, _, _, _) => r := VisitForLoop(s);
      case Break(debugData) =>
        var comment := FormatSourceLocationComment(debugData, true);
        r := Ok(comment + "break");
      case Continue(debugData) =>
        var comment := FormatSourceLocationComment(debugData, true);
        r := Ok(comment + "continue");
      case Leave(debugData) =>
        var comment := FormatSourceLocationComment(debugData, true);
        r := Ok(comment + "leave");
      case BlockStatement(block) => r := VisitBlock(block);
    }

    method VisitExpressionStatement(s: Statement) returns (r: Result<string, Failure>)
      requires s.ExpressionStatement?
      modifies this
      ensures depth == old(depth)
      ensures Rendered(r, lastLocation) == RenderStatement(env, s, old(depth), old(lastLocation))
      decreases s, 0
    {
      var comment := FormatSourceLocationComment(s.debugData, true);
      depth := depth + 1;
      var x := VisitExpression(s.expression);
      depth := depth - 1;
      if x.Err? {
        return x;
      }
      r := Ok(comment + x.value);
    }

    method VisitAssignment(s: Statement) returns (r: Result<string, Failure>)
      requires s.Assignment?
      modifies this
      ensures depth == old(depth)
      ensures Rendered(r, lastLocation) == RenderAssignment(env, s, old(depth), old(lastLocation))
      decreases s, 0
    {
      var names := s.variableNames;
      if |names| < 1 {
        return Err(NoAssignmentTarget);
      }
      assert names[..0] == [];
      IdentifiersSnoc(env, names, depth, 0, old(lastLocation));
      var first := VisitIdentifier(names[0]);
      if first.Err? {
        IdentifiersStopAtFailure(env, names, depth, 1, old(lastLocation));
        return first;
      }
      var variables := first.value;
      assert [] + [] + variables == variables;
      for i := 1 to |names|
        invariant depth == old(depth)
        invariant RenderIdentifiers(env, names[..i], depth, old(lastLocation)) == Rendered(Ok(variables), lastLocation)
      {
        IdentifiersSnoc(env, names, depth, i, old(lastLocation));
        var x := VisitIdentifier(names[i]);
        if x.Err? {
          IdentifiersStopAtFailure(env, names, depth, i + 1, old(lastLocation));
          return x;
        }
        variables := variables + ", " + x.value;
      }
      assert names[..|names|] == names;

      var comment := FormatSourceLocationComment(s.debugData, true);
      depth := depth + 1;
      var value := VisitExpression(s.value);
      depth := depth - 1;
      if value.Err? {
        return value;
      }
      r := Ok(comment + variables + " := " + value.value);
    }

    method VisitVariableDeclaration(s: Statement) returns (r: Result<string, Failure>)
      requires s.VariableDeclaration?
      modifies this
      ensures depth == old(depth)
      ensures Rendered(r, lastLocation) == RenderVariableDeclaration(env, s, old(depth), old(lastLocation))
      decreases s, 0
    {
      var out := FormatSourceLocationComment(s.debugData, true);
      out := out + "let ";
      depth := depth + 1;
      var variables := FormatTypedNames(s.variables);
      if variables.Err? {
        depth := depth - 1;
        return variables;
      }
      out := out + variables.value;
      if s.initialValue.Some? {
        out := out + " := ";
        var value := VisitExpression(s.initialValue.value);
        if value.Err? {
          depth := depth - 1;
          return value;
        }
        out := out + value.value;
      }
      depth := depth - 1;
      r := Ok(out);
    }

    method VisitFunctionDefinition(s: Statement) returns (r: Result<string, Failure>)
      requires s.FunctionDefinition?
      modifies this
      ensures depth == old(depth)
      ensures Rendered(r, lastLocation) == RenderFunctionDefinition(env, s, old(depth), old(lastLocation))
      decreases s, 0
    {
      if s.name == [] {
        return Err(InvalidFunctionName);
      }
      var out := FormatSourceLocationComment(s.debugData, true);
      out := out + "function " + s.name + "(";
      depth := depth + 1;
      var parameters := FormatTypedNames(s.parameters);
      if parameters.Err? {
        depth := depth - 1;
        return parameters;
      }
      out := out + parameters.value + ")";
      if |s.returnVariables| != 0 {
        out := out + " -> ";
        var returnVariables := FormatTypedNames(s.returnVariables);
        if returnVariables.Err? {
          depth := depth - 1;
          return returnVariables;
        }
        out := out + returnVariables.value;
      }
      depth := depth - 1;
      var body := VisitBlock(s.body);
      if body.Err? {
        return body;
      }
      r := Ok(out + "\n" + body.value);
    }

    method VisitIf(s: Statement) returns (r: Result<string, Failure>)
      requires s.If?
      modifies this
      ensures depth == old(depth)
      ensures Rendered(r, lastLocation) == RenderIf(env, s, old(depth), old(lastLocation))
      decreases s, 0
    {
      if s.condition.None? {
        return Err(InvalidIfCondition);
      }
      var comment := FormatSourceLocationComment(s.debugData, true);
      ghost var c := Comment(comment, lastLocation);
      // The body is rendered once only to choose the delimiter.
      var probe := VisitBlock(s.body);
      ghost var p := Rendered(probe, lastLocation);
      if probe.Err? {
        return probe;
      }
      var delim := '\n';
      if !HasNewline(probe.value) {
        delim := ' ';
      }
      assert delim == IfDelimiter(probe.value);
      depth := depth + 1;
      var condition := VisitExpression(s.condition.value);
      depth := depth - 1;
      ghost var cond := Rendered(condition, lastLocation);
      if condition.Err? {
        return condition;
      }
      var out := comment + "if " + condition.value + [delim];
      assert RenderIf(env, s, old(depth), old(lastLocation)) == Prepend(out, RenderBlock(env, s.body, depth, cond.last));
      var body := VisitBlock(s.body);
      if body.Err? {
        return body;
      }
      r := Ok(out + body.value);
    }

    method VisitSwitch(s: Statement) returns (r: Result<string, Failure>)
      requires s.Switch?
      modifies this
      ensures depth == old(depth)
      ensures Rendered(r, lastLocation) == RenderSwitch(env, s, old(depth), old(lastLocation))
      decreases s, 0
    {
      if s.selector.None? {
        return Err(InvalidSwitchExpression);
      }
      depth := depth + 1;
      var out := FormatSourceLocationComment(s.debugData, true);
      var selector := VisitExpression(s.selector.value);
      depth := depth - 1;
      if selector.Err? {
        return selector;
      }
      var cases := VisitCases(s.cases);
      if cases.Err? {
        return cases;
      }
      r := Ok(out + "switch " + selector.value + cases.value);
    }

    /** The cases of a switch, each on its own line, in order. */
    method VisitCases(cases: seq<Case>) returns (r: Result<string, Failure>)
      modifies this
      ensures depth == old(depth)
      ensures Rendered(r, lastLocation) == RenderCases(env, cases, old(depth), old(lastLocation))
      decreases cases, 1
    {
      ghost var start := lastLocation;
      var out := [];
      for i := 0 to |cases|
        invariant depth == old(depth)
        invariant RenderCases(env, cases[..i], depth, start) == Rendered(Ok(out), lastLocation)
      {
        CasesSnoc(env, cases, depth, i, start);
        var x := VisitCase(cases[i]);
        if x.Err? {
          CasesStopAtFailure(env, cases, depth, i + 1, start);
          return x;
        }
        out := out + x.value;
      }
      assert cases[..|cases|] == cases;
      r := Ok(out);
    }

    /** One case: `default` or `case` with its literal, then the body block. */
    method VisitCase(cs: Case) returns (r: Result<string, Failure>)
      modifies this
      ensures depth == old(depth)
      ensures Rendered(r, lastLocation) == RenderCase(env, cs, old(depth), old(lastLocation))
      decreases cs, 1
    {
      var caseHead: string;
      if cs.value.None? {
        caseHead := "\ndefault ";
      } else {
        depth := depth + 1;
        var value := VisitLiteral(cs.value.value);
        depth := depth - 1;
        if value.Err? {
          return value;
        }
        caseHead := "\ncase " + value.value + " ";
      }
      var body := VisitBlock(cs.body);
      if body.Err? {
        return body;
      }
      r := Ok(caseHead + body.value);
    }

    method VisitForLoop(s: Statement) returns (r: Result<string, Failure>)
      requires s.ForLoop?
      modifies this
      ensures depth == old(depth)
      ensures Rendered(r, lastLocation) == RenderForLoop(env, s, old(depth), old(lastLocation))
      decreases s, 1
    {
      var header := VisitForHeader(s);
      if header.Err? {
        return header;
      }
      var body := VisitBlock(s.body);
      if body.Err? {
        return body;
      }
      r := Ok(header.value + body.value);
    }

    /** The location comment and the `for` line: pre block, condition and post block at expression depth. */
    method VisitForHeader(s: Statement) returns (r: Result<string, Failure>)
      requires s.ForLoop?
      modifies this
      ensures depth == old(depth)
      ensures Rendered(r, lastLocation) == RenderForHeader(env, s, old(depth), old(lastLocation))
      decreases s, 0
    {
      if s.condition.None? {
        return Err(InvalidForCondition);
      }
      var comment := FormatSourceLocationComment(s.debugData, true);
      ghost var c := Comment(comment, lastLocation);
      depth := depth + 1;
      var pre := VisitBlock(s.pre);
      ghost var p := Rendered(pre, lastLocation);
      assert p == RenderBlock(env, s.pre, old(depth) + 1, c.last);
      if pre.Err? {
        depth := depth - 1;
        return pre;
      }
      var condition := VisitExpression(s.condition.value);
      ghost var cond := Rendered(condition, lastLocation);
      assert cond == RenderExpression(env, s.condition.value, old(depth) + 1, p.last);
      if condition.Err? {
        depth := depth - 1;
        return condition;
      }
      var post := VisitBlock(s.post);
      depth := depth - 1;
      if post.Err? {
        return post;
      }
      r := Ok(comment + ForHeader(pre.value, condition.value, post.value));
    }

    method VisitBlock(block: Block) returns (r: Result<string, Failure>)
      modifies this
      ensures depth == old(depth)
      ensures Rendered(r, lastLocation) == RenderBlock(env, block, old(depth), old(lastLocation))
      decreases block, 1
    {
      var comment := FormatSourceLocationComment(block.debugData, true);
      var originalDepth := depth;
      var statements := block.statements;
      if |statements| == 0 {
        return Ok(comment + "{ }");
      }
      ghost var start := lastLocation;
      var body := [];
      for i := 0 to |statements|
        invariant depth == originalDepth
        invariant RenderStatements(env, statements[..i], depth, start) == Rendered(Ok(body), lastLocation)
      {
        StatementsSnoc(env, statements, depth, i, start);
        var x := VisitStatement(statements[i]);
        if x.Err? {
          StatementsStopAtFailure(env, statements, depth, i + 1, start);
          assert depth == originalDepth;
          return x;
        }
        body := body + (if i == 0 then [] else "\n") + x.value;
      }
      assert statements[..|statements|] == statements;
      if |body| < BlockInlineLimit && !HasNewline(body) {
        assert BlockLayout(body) == "{ " + body + " }";
        r := Ok(comment + ("{ " + body + " }"));
      } else {
        ghost var joined := body;
        body := IndentNewlines(body);
        assert BlockLayout(joined) == "{\n    " + body + "\n}";
        r := Ok(comment + ("{\n    " + body + "\n}"));
      }
      // The expression depth is the one the block was entered with.
      assert depth == originalDepth;
    }
  }
}
