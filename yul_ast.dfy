/**
 * The Yul abstract syntax tree as the printer sees it: every node may carry debug
 * data, reduced here to the source location the printer compares and prints.
 * Absent pointers of the original tree (`debugData`, an `if` condition, a `switch`
 * expression, a `for` condition, a variable's initial value, a case value) are
 * `Option`s; names and types are plain strings, the empty string standing for an
 * empty `YulString`.
 */
module YulAst {
  import opened Wrappers

  /** A source range: the name of the source it lies in and its byte offsets. */
  datatype Location = Location(sourceName: string, start: int, end: int)

  datatype LiteralKind = Number | Boolean | String

  datatype Literal = Literal(debugData: Option<Location>, kind: LiteralKind, value: string, typ: string)

  datatype Identifier = Identifier(debugData: Option<Location>, name: string)

  /** A declared variable, parameter or return variable with its optional type (`""` for none). */
  datatype TypedName = TypedName(debugData: Option<Location>, name: string, typ: string)

  datatype Expression =
    | LiteralExpression(literal: Literal)
    | IdentifierExpression(identifier: Identifier)
    | FunctionCall(debugData: Option<Location>, functionName: Identifier, arguments: seq<Expression>)

  /**
   * One constructor per statement kind. Where two kinds have a child of the same
   * name but a different type, the second is renamed: the initial value of a
   * declaration is `initialValue`, the expression of a switch is `selector`.
   */
  datatype Statement =
    | ExpressionStatement(debugData: Option<Location>, expression: Expression)
    | Assignment(debugData: Option<Location>, variableNames: seq<Identifier>, value: Expression)
    | VariableDeclaration(debugData: Option<Location>, variables: seq<TypedName>, initialValue: Option<Expression>)
    | FunctionDefinition(debugData: Option<Location>, name: string, parameters: seq<TypedName>,
                         returnVariables: seq<TypedName>, body: Block)
    | If(debugData: Option<Location>, condition: Option<Expression>, body: Block)
    | Switch(debugData: Option<Location>, selector: Option<Expression>, cases: seq<Case>)
    | ForLoop(debugData: Option<Location>, pre: Block, condition: Option<Expression>, post: Block, body: Block)
    | Break(debugData: Option<Location>)
    | Continue(debugData: Option<Location>)
    | Leave(debugData: Option<Location>)
    | BlockStatement(block: Block)

  /** A switch case: `default` when it has no value. */
  datatype Case = Case(value: Option<Literal>, body: Block)

  datatype Block = Block(debugData: Option<Location>, statements: seq<Statement>)
}
