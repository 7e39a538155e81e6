/**
 * Which trees the printer accepts. The printer asserts a handful of local
 * conditions (a number literal is decimal or hex, names are non-empty, an `if`
 * has a condition, ...); a tree is well formed when every node satisfies the one
 * for its kind. The printer succeeds on a tree exactly when the tree is well
 * formed, whatever the depth and the last emitted location it starts from.
 */
module WellFormed {
  import opened Wrappers
  import opened CommonData
  import opened YulAst
  import opened AsmPrinterSpec

  predicate WfLiteral(literal: Literal)
  {
    match literal.kind
    case Number => IsValidDecimal(literal.value) || IsValidHex(literal.value)
    case Boolean => literal.value == "true" || literal.value == "false"
    case String => true
  }

  predicate AllNamed(variables: seq<TypedName>)
  {
    forall k :: 0 <= k < |variables| ==> variables[k].name != []
  }

  predicate AllIdentified(names: seq<Identifier>)
  {
    forall k :: 0 <= k < |names| ==> names[k].name != []
  }

  predicate WfExpression(e: Expression)
    decreases e
  {
    match e
    case LiteralExpression(literal) => WfLiteral(literal)
    case IdentifierExpression(identifier) => identifier.name != []
    case FunctionCall(_, functionName, arguments) =>
      functionName.name != [] && forall k :: 0 <= k < |arguments| ==> WfExpression(arguments[k])
  }

  predicate WfStatement(s: Statement)
    decreases s
  {
    match s
    case ExpressionStatement(_, expression) => WfExpression(expression)
    case Assignment(_, variableNames, value) =>
      |variableNames| > 0 && AllIdentified(variableNames) && WfExpression(value)
    case VariableDeclaration(_, variables, initialValue) =>
      AllNamed(variables) && (initialValue.Some? ==> WfExpression(initialValue.value))
    case FunctionDefinition(_, name, parameters, returnVariables, body) =>
      name != [] && AllNamed(parameters) && AllNamed(returnVariables) && WfBlock(body)
    case If(_, condition, body) => condition.Some? && WfExpression(condition.value) && WfBlock(body)
    case Switch(_, selector, cases) =>
      selector.Some? && WfExpression(selector.value) && forall k :: 0 <= k < |cases| ==> WfCase(cases[k])
    case ForLoop(_, pre, condition, post, body) =>
      condition.Some? && WfBlock(pre) && WfExpression(condition.value) && WfBlock(post) && WfBlock(body)
    case Break(_) => true
    case Continue(_) => true
    case Leave(_) => true
    case BlockStatement(block) => WfBlock(block)
  }

  predicate WfCase(cs: Case)
    decreases cs
  {
    (cs.value.Some? ==> WfLiteral(cs.value.value)) && WfBlock(cs.body)
  }

  predicate WfBlock(block: Block)
    decreases block
  {
    forall k :: 0 <= k < |block.statements| ==> WfStatement(block.statements[k])
  }

  lemma LiteralOk(env: Env, literal: Literal, depth: nat, last: Option<Location>)
    ensures RenderLiteral(env, literal, depth, last).text.Ok? <==> WfLiteral(literal)
  {
  }

  lemma {:induction false} TypedNamesOk(env: Env, variables: seq<TypedName>, last: Option<Location>)
    ensures RenderTypedNames(env, variables, last).text.Ok? <==> AllNamed(variables)
    decreases |variables|
  {
    if |variables| > 0 {
      var init := variables[..|variables| - 1];
      TypedNamesOk(env, init, last);
      assert forall k :: 0 <= k < |init| ==> init[k] == variables[k];
    }
  }

  lemma {:induction false} IdentifiersOk(env: Env, names: seq<Identifier>, depth: nat, last: Option<Location>)
    ensures RenderIdentifiers(env, names, depth, last).text.Ok? <==> AllIdentified(names)
    decreases |names|
  {
    if |names| > 0 {
      var init := names[..|names| - 1];
      IdentifiersOk(env, init, depth, last);
      assert forall k :: 0 <= k < |init| ==> init[k] == names[k];
    }
  }

  lemma {:induction false} ExpressionOk(env: Env, e: Expression, depth: nat, last: Option<Location>)
    ensures RenderExpression(env, e, depth, last).text.Ok? <==> WfExpression(e)
    decreases e, 1
  {
    match e
    case LiteralExpression(literal) => LiteralOk(env, literal, depth, last);
    case IdentifierExpression(_) =>
    case FunctionCall(debugData, functionName, arguments) =>
      var c := LocationComment(env, last, debugData, depth == 0);
      var f := RenderIdentifier(env, functionName, depth, c.last);
      ArgumentsOk(env, arguments, depth, f.last);
  }

  lemma {:induction false} ArgumentsOk(env: Env, arguments: seq<Expression>, depth: nat, last: Option<Location>)
    ensures RenderArguments(env, arguments, depth, last).text.Ok? <==>
      forall k :: 0 <= k < |arguments| ==> WfExpression(arguments[k])
    decreases arguments, 0
  {
    if |arguments| > 0 {
      var init := arguments[..|arguments| - 1];
      ArgumentsOk(env, init, depth, last);
      assert forall k :: 0 <= k < |init| ==> init[k] == arguments[k];
      var prev := RenderArguments(env, init, depth, last);
      ExpressionOk(env, arguments[|arguments| - 1], depth, prev.last);
    }
  }

  lemma {:induction false} StatementOk(env: Env, s: Statement, depth: nat, last: Option<Location>)
    ensures RenderStatement(env, s, depth, last).text.Ok? <==> WfStatement(s)
    decreases s, 2
  {
    match s
    case ExpressionStatement(debugData, expression) =>
      var c := LocationComment(env, last, debugData, true);
      ExpressionOk(env, expression, depth + 1, c.last);
    case Assignment(_, _, _) => AssignmentOk(env, s, depth, last);
    case VariableDeclaration(_, _, _) => VariableDeclarationOk(env, s, depth, last);
    case FunctionDefinition(_, _, _, _, _) => FunctionDefinitionOk(env, s, depth, last);
    case If(_, _, _) => IfOk(env, s, depth, last);
    case Switch(_, _, _) => SwitchOk(env, s, depth, last);
    case ForLoop(_, _, _, _, _) => ForLoopOk(env, s, depth, last);
    case Break(_) =>
    case Continue(_) =>
    case Leave(_) =>
    case BlockStatement(block) => BlockOk(env, block, depth, last);
  }

  lemma {:induction false} AssignmentOk(env: Env, s: Statement, depth: nat, last: Option<Location>)
    requires s.Assignment?
    ensures RenderAssignment(env, s, depth, last).text.Ok? <==> WfStatement(s)
    decreases s, 1
  {
    if |s.variableNames| > 0 {
      IdentifiersOk(env, s.variableNames, depth, last);
      var vars := RenderIdentifiers(env, s.variableNames, depth, last);
      var c := LocationComment(env, vars.last, s.debugData, true);
      ExpressionOk(env, s.value, depth + 1, c.last);
    }
  }

  lemma {:induction false} VariableDeclarationOk(env: Env, s: Statement, depth: nat, last: Option<Location>)
    requires s.VariableDeclaration?
    ensures RenderVariableDeclaration(env, s, depth, last).text.Ok? <==> WfStatement(s)
    decreases s, 1
  {
    var c := LocationComment(env, last, s.debugData, true);
    TypedNamesOk(env, s.variables, c.last);
    var vars := RenderTypedNames(env, s.variables, c.last);
    if s.initialValue.Some? {
      ExpressionOk(env, s.initialValue.value, depth + 1, vars.last);
    }
  }

  lemma {:induction false} FunctionDefinitionOk(env: Env, s: Statement, depth: nat, last: Option<Location>)
    requires s.FunctionDefinition?
    ensures RenderFunctionDefinition(env, s, depth, last).text.Ok? <==> WfStatement(s)
    decreases s, 1
  {
    var c := LocationComment(env, last, s.debugData, true);
    TypedNamesOk(env, s.parameters, c.last);
    var params := RenderTypedNames(env, s.parameters, c.last);
    TypedNamesOk(env, s.returnVariables, params.last);
    var rets := RenderTypedNames(env, s.returnVariables, params.last);
    if |s.returnVariables| == 0 {
      BlockOk(env, s.body, depth, params.last);
    } else {
      BlockOk(env, s.body, depth, rets.last);
    }
  }

  lemma {:induction false} IfOk(env: Env, s: Statement, depth: nat, last: Option<Location>)
    requires s.If?
    ensures RenderIf(env, s, depth, last).text.Ok? <==> WfStatement(s)
    decreases s, 1
  {
    if s.condition.Some? {
      var c := LocationComment(env, last, s.debugData, true);
      BlockOk(env, s.body, depth, c.last);
      var probe := RenderBlock(env, s.body, depth, c.last);
      ExpressionOk(env, s.condition.value, depth + 1, probe.last);
      var cond := RenderExpression(env, s.condition.value, depth + 1, probe.last);
      BlockOk(env, s.body, depth, cond.last);
    }
  }

  lemma {:induction false} SwitchOk(env: Env, s: Statement, depth: nat, last: Option<Location>)
    requires s.Switch?
    ensures RenderSwitch(env, s, depth, last).text.Ok? <==> WfStatement(s)
    decreases s, 1
  {
    if s.selector.Some? {
      var c := LocationComment(env, last, s.debugData, true);
      ExpressionOk(env, s.selector.value, depth + 1, c.last);
      var sel := RenderExpression(env, s.selector.value, depth + 1, c.last);
      CasesOk(env, s.cases, depth, sel.last);
    }
  }

  lemma {:induction false} ForLoopOk(env: Env, s: Statement, depth: nat, last: Option<Location>)
    requires s.ForLoop?
    ensures RenderForLoop(env, s, depth, last).text.Ok? <==> WfStatement(s)
    decreases s, 1
  {
    if s.condition.Some? {
      var c := LocationComment(env, last, s.debugData, true);
      BlockOk(env, s.pre, depth + 1, c.last);
      var p := RenderBlock(env, s.pre, depth + 1, c.last);
      ExpressionOk(env, s.condition.value, depth + 1, p.last);
      var cond := RenderExpression(env, s.condition.value, depth + 1, p.last);
      BlockOk(env, s.post, depth + 1, cond.last);
      var header := RenderForHeader(env, s, depth, last);
      BlockOk(env, s.body, depth, header.last);
    }
  }

  lemma {:induction false} CaseOk(env: Env, cs: Case, depth: nat, last: Option<Location>)
    ensures RenderCase(env, cs, depth, last).text.Ok? <==> WfCase(cs)
    decreases cs, 1
  {
    if cs.value.None? {
      BlockOk(env, cs.body, depth, last);
    } else {
      LiteralOk(env, cs.value.value, depth + 1, last);
      var v := RenderLiteral(env, cs.value.value, depth + 1, last);
      BlockOk(env, cs.body, depth, v.last);
    }
  }

  lemma {:induction false} CasesOk(env: Env, cases: seq<Case>, depth: nat, last: Option<Location>)
    ensures RenderCases(env, cases, depth, last).text.Ok? <==> forall k :: 0 <= k < |cases| ==> WfCase(cases[k])
    decreases cases, 0
  {
    if |cases| > 0 {
      var init := cases[..|cases| - 1];
      CasesOk(env, init, depth, last);
      assert forall k :: 0 <= k < |init| ==> init[k] == cases[k];
      var prev := RenderCases(env, init, depth, last);
      CaseOk(env, cases[|cases| - 1], depth, prev.last);
    }
  }

  lemma {:induction false} StatementsOk(env: Env, statements: seq<Statement>, depth: nat, last: Option<Location>)
    ensures RenderStatements(env, statements, depth, last).text.Ok? <==>
      forall k :: 0 <= k < |statements| ==> WfStatement(statements[k])
    decreases statements, 0
  {
    if |statements| > 0 {
      var init := statements[..|statements| - 1];
      StatementsOk(env, init, depth, last);
      assert forall k :: 0 <= k < |init| ==> init[k] == statements[k];
      var prev := RenderStatements(env, init, depth, last);
      StatementOk(env, statements[|statements| - 1], depth, prev.last);
    }
  }

  lemma {:induction false} BlockOk(env: Env, block: Block, depth: nat, last: Option<Location>)
    ensures RenderBlock(env, block, depth, last).text.Ok? <==> WfBlock(block)
    decreases block, 1
  {
    var c := LocationComment(env, last, block.debugData, true);
    StatementsOk(env, block.statements, depth, c.last);
  }
}
