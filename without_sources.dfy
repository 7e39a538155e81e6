/**
 * Printing without a source-index table. With an empty table no location
 * comment is ever emitted, so the last emitted location never changes and the
 * printed text depends on the tree alone: not on the depth the printer is at,
 * nor on what it printed before. In particular the two renderings of an `if`
 * body agree, and its delimiter is a space exactly when the printed body is on
 * one line.
 */
module WithoutSources {
  import opened Wrappers
  import opened Text
  import opened YulAst
  import opened AsmPrinterSpec

  predicate NoSources(env: Env)
  {
    |env.nameToSourceIndex| == 0
  }

  /** Rendering `x` in one state and another: the same text, and the last location untouched. */
  predicate Stateless(r1: Rendered, r2: Rendered, last1: Option<Location>, last2: Option<Location>)
  {
    r1 == Rendered(r2.text, last1) && r2.last == last2
  }

  lemma CommentWithoutSources(env: Env, last: Option<Location>, debugData: Option<Location>, statement: bool)
    requires NoSources(env)
    ensures LocationComment(env, last, debugData, statement) == Comment([], last)
  {
  }

  lemma {:induction false} TypedNamesWithoutSources(env: Env, variables: seq<TypedName>, last1: Option<Location>, last2: Option<Location>)
    requires NoSources(env)
    ensures Stateless(RenderTypedNames(env, variables, last1), RenderTypedNames(env, variables, last2), last1, last2)
    decreases |variables|
  {
    if |variables| > 0 {
      TypedNamesWithoutSources(env, variables[..|variables| - 1], last1, last2);
    }
  }

  lemma {:induction false} IdentifiersWithoutSources(env: Env, names: seq<Identifier>,
                                                    depth1: nat, last1: Option<Location>, depth2: nat, last2: Option<Location>)
    requires NoSources(env)
    ensures Stateless(RenderIdentifiers(env, names, depth1, last1), RenderIdentifiers(env, names, depth2, last2), last1, last2)
    decreases |names|
  {
    if |names| > 0 {
      IdentifiersWithoutSources(env, names[..|names| - 1], depth1, last1, depth2, last2);
    }
  }

  lemma {:induction false} ExpressionWithoutSources(env: Env, e: Expression,
                                                   depth1: nat, last1: Option<Location>, depth2: nat, last2: Option<Location>)
    requires NoSources(env)
    ensures Stateless(RenderExpression(env, e, depth1, last1), RenderExpression(env, e, depth2, last2), last1, last2)
    decreases e, 1
  {
    match e
    case LiteralExpression(_) =>
    case IdentifierExpression(_) =>
    case FunctionCall(_, _, arguments) =>
      ArgumentsWithoutSources(env, arguments, depth1, last1, depth2, last2);
  }

  lemma {:induction false} ArgumentsWithoutSources(env: Env, arguments: seq<Expression>,
                                                  depth1: nat, last1: Option<Location>, depth2: nat, last2: Option<Location>)
    requires NoSources(env)
    ensures Stateless(RenderArguments(env, arguments, depth1, last1), RenderArguments(env, arguments, depth2, last2), last1, last2)
    decreases arguments, 0
  {
    if |arguments| > 0 {
      ArgumentsWithoutSources(env, arguments[..|arguments| - 1], depth1, last1, depth2, last2);
      ExpressionWithoutSources(env, arguments[|arguments| - 1], depth1, last1, depth2, last2);
    }
  }

  lemma {:induction false} StatementWithoutSources(env: Env, s: Statement,
                                                  depth1: nat, last1: Option<Location>, depth2: nat, last2: Option<Location>)
    requires NoSources(env)
    ensures Stateless(RenderStatement(env, s, depth1, last1), RenderStatement(env, s, depth2, last2), last1, last2)
    decreases s, 2
  {
    match s
    case ExpressionStatement(_, expression) =>
      ExpressionWithoutSources(env, expression, depth1 + 1, last1, depth2 + 1, last2);
    case Assignment(_, _, _) => AssignmentWithoutSources(env, s, depth1, last1, depth2, last2);
    case VariableDeclaration(_, _, _) => VariableDeclarationWithoutSources(env, s, depth1, last1, depth2, last2);
    case FunctionDefinition(_, _, _, _, _) => FunctionDefinitionWithoutSources(env, s, depth1, last1, depth2, last2);
    case If(_, _, _) => IfWithoutSources(env, s, depth1, last1, depth2, last2);
    case Switch(_, _, _) => SwitchWithoutSources(env, s, depth1, last1, depth2, last2);
    case ForLoop(_, _, _, _, _) => ForLoopWithoutSources(env, s, depth1, last1, depth2, last2);
    case Break(_) =>
    case Continue(_) =>
    case Leave(_) =>
    case BlockStatement(block) => BlockWithoutSources(env, block, depth1, last1, depth2, last2);
  }

  lemma {:induction false} AssignmentWithoutSources(env: Env, s: Statement,
                                                   depth1: nat, last1: Option<Location>, depth2: nat, last2: Option<Location>)
    requires NoSources(env) && s.Assignment?
    ensures Stateless(RenderAssignment(env, s, depth1, last1), RenderAssignment(env, s, depth2, last2), last1, last2)
    decreases s, 1
  {
    IdentifiersWithoutSources(env, s.variableNames, depth1, last1, depth2, last2);
    ExpressionWithoutSources(env, s.value, depth1 + 1, last1, depth2 + 1, last2);
  }

  lemma {:induction false} VariableDeclarationWithoutSources(env: Env, s: Statement,
                                                            depth1: nat, last1: Option<Location>, depth2: nat, last2: Option<Location>)
    requires NoSources(env) && s.VariableDeclaration?
    ensures Stateless(RenderVariableDeclaration(env, s, depth1, last1), RenderVariableDeclaration(env, s, depth2, last2), last1, last2)
    decreases s, 1
  {
    TypedNamesWithoutSources(env, s.variables, last1, last2);
    if s.initialValue.Some? {
      ExpressionWithoutSources(env, s.initialValue.value, depth1 + 1, last1, depth2 + 1, last2);
    }
  }

  lemma {:induction false} FunctionDefinitionWithoutSources(env: Env, s: Statement,
                                                           depth1: nat, last1: Option<Location>, depth2: nat, last2: Option<Location>)
    requires NoSources(env) && s.FunctionDefinition?
    ensures Stateless(RenderFunctionDefinition(env, s, depth1, last1), RenderFunctionDefinition(env, s, depth2, last2), last1, last2)
    decreases s, 1
  {
    TypedNamesWithoutSources(env, s.parameters, last1, last2);
    TypedNamesWithoutSources(env, s.returnVariables, last1, last2);
    BlockWithoutSources(env, s.body, depth1, last1, depth2, last2);
  }

  lemma {:induction false} SwitchWithoutSources(env: Env, s: Statement,
                                               depth1: nat, last1: Option<Location>, depth2: nat, last2: Option<Location>)
    requires NoSources(env) && s.Switch?
    ensures Stateless(RenderSwitch(env, s, depth1, last1), RenderSwitch(env, s, depth2, last2), last1, last2)
    decreases s, 1
  {
    if s.selector.Some? {
      ExpressionWithoutSources(env, s.selector.value, depth1 + 1, last1, depth2 + 1, last2);
      CasesWithoutSources(env, s.cases, depth1, last1, depth2, last2);
    }
  }

  lemma {:induction false} IfWithoutSources(env: Env, s: Statement,
                                           depth1: nat, last1: Option<Location>, depth2: nat, last2: Option<Location>)
    requires NoSources(env) && s.If?
    ensures Stateless(RenderIf(env, s, depth1, last1), RenderIf(env, s, depth2, last2), last1, last2)
    decreases s, 1
  {
    if s.condition.Some? {
      BlockWithoutSources(env, s.body, depth1, last1, depth2, last2);
      ExpressionWithoutSources(env, s.condition.value, depth1 + 1, last1, depth2 + 1, last2);
    }
  }

  lemma {:induction false} ForLoopWithoutSources(env: Env, s: Statement,
                                                depth1: nat, last1: Option<Location>, depth2: nat, last2: Option<Location>)
    requires NoSources(env) && s.ForLoop?
    ensures Stateless(RenderForLoop(env, s, depth1, last1), RenderForLoop(env, s, depth2, last2), last1, last2)
    decreases s, 1
  {
    if s.condition.Some? {
      BlockWithoutSources(env, s.pre, depth1 + 1, last1, depth2 + 1, last2);
      ExpressionWithoutSources(env, s.condition.value, depth1 + 1, last1, depth2 + 1, last2);
      BlockWithoutSources(env, s.post, depth1 + 1, last1, depth2 + 1, last2);
      assert Stateless(RenderForHeader(env, s, depth1, last1), RenderForHeader(env, s, depth2, last2), last1, last2);
      BlockWithoutSources(env, s.body, depth1, last1, depth2, last2);
    }
  }

  lemma {:induction false} CaseWithoutSources(env: Env, cs: Case,
                                             depth1: nat, last1: Option<Location>, depth2: nat, last2: Option<Location>)
    requires NoSources(env)
    ensures Stateless(RenderCase(env, cs, depth1, last1), RenderCase(env, cs, depth2, last2), last1, last2)
    decreases cs, 1
  {
    BlockWithoutSources(env, cs.body, depth1, last1, depth2, last2);
  }

  lemma {:induction false} CasesWithoutSources(env: Env, cases: seq<Case>,
                                              depth1: nat, last1: Option<Location>, depth2: nat, last2: Option<Location>)
    requires NoSources(env)
    ensures Stateless(RenderCases(env, cases, depth1, last1), RenderCases(env, cases, depth2, last2), last1, last2)
    decreases cases, 0
  {
    if |cases| > 0 {
      CasesWithoutSources(env, cases[..|cases| - 1], depth1, last1, depth2, last2);
      CaseWithoutSources(env, cases[|cases| - 1], depth1, last1, depth2, last2);
    }
  }

  lemma {:induction false} StatementsWithoutSources(env: Env, statements: seq<Statement>,
                                                   depth1: nat, last1: Option<Location>, depth2: nat, last2: Option<Location>)
    requires NoSources(env)
    ensures Stateless(RenderStatements(env, statements, depth1, last1), RenderStatements(env, statements, depth2, last2), last1, last2)
    decreases statements, 0
  {
    if |statements| > 0 {
      StatementsWithoutSources(env, statements[..|statements| - 1], depth1, last1, depth2, last2);
      StatementWithoutSources(env, statements[|statements| - 1], depth1, last1, depth2, last2);
    }
  }

  lemma {:induction false} BlockWithoutSources(env: Env, block: Block,
                                              depth1: nat, last1: Option<Location>, depth2: nat, last2: Option<Location>)
    requires NoSources(env)
    ensures Stateless(RenderBlock(env, block, depth1, last1), RenderBlock(env, block, depth2, last2), last1, last2)
    decreases block, 1
  {
    StatementsWithoutSources(env, block.statements, depth1, last1, depth2, last2);
  }

  /**
   * Without a source-index table an `if` is its condition, then a space when the
   * printed body is on one line and a newline otherwise, then that body.
   */
  lemma IfLayoutWithoutSources(env: Env, s: Statement, depth: nat, last: Option<Location>)
    requires NoSources(env) && s.If?
    requires RenderIf(env, s, depth, last).text.Ok?
    ensures s.condition.Some?
    ensures RenderExpression(env, s.condition.value, depth + 1, last).text.Ok?
    ensures RenderBlock(env, s.body, depth, last).text.Ok?
    ensures var condition := RenderExpression(env, s.condition.value, depth + 1, last).text.value;
      var body := RenderBlock(env, s.body, depth, last).text.value;
      RenderIf(env, s, depth, last).text.value == "if " + condition + [IfDelimiter(body)] + body
    ensures IfDelimiter(RenderBlock(env, s.body, depth, last).text.value) == ' ' <==>
      !HasNewline(RenderBlock(env, s.body, depth, last).text.value)
  {
    BlockWithoutSources(env, s.body, depth, last, depth, last);
    ExpressionWithoutSources(env, s.condition.value, depth + 1, last, depth + 1, last);
  }
}
