# Yul AST printer (libyul `AsmPrinter`) in Dafny

This project models the pretty-printer that turns a Yul syntax tree back into
Yul source text: the class `AsmPrinter` of `libyul/AsmPrinter.cpp`. It covers
every visitor (`operator()` for Literal, Identifier, ExpressionStatement,
Assignment, VariableDeclaration, FunctionDefinition, FunctionCall, If, Switch,
ForLoop, Break, Continue, Leave and Block) and the helpers `formatTypedName`,
`appendTypeName` and `formatSourceLocationComment`. The model includes:

- the layout rules:
  - a block goes inline when its joined statements are under 30 characters on one line;
  - a `for` header goes on one line when init, condition and post together are under 60 characters and neither init nor post spans lines;
  - an `if` body follows a space or a newline;
- the `:type` suffix elision against the dialect's default and bool types;
- the `@src` location comments, in statement form (`/// @src i:s:e` and a
  newline) or expression form (`/** @src i:s:e */` and a space), with repeats of
  the last emitted location suppressed;
- the expression-depth counter, which every visitor restores;
- the printer's assertions.

The project has two layers.

- `AsmPrinterSpec` (`asm_printer_spec.dfy`) describes the printer as functions.
  - `RenderX(env, node, depth, last)` gives the text a visitor returns, or the assertion that stopped it.
  - It also gives the last emitted location afterwards.
  - `depth` is the printer's `m_insideExpression`; `last` is its `m_lastLocation`.
- `AsmPrinter.Printer` (`asm_printer.dfy`) is the printer object.
  - Its mutable fields are `depth` and `lastLocation`.
  - It has one method per visitor, which makes the stateful calls in the order the source makes them.
  - Each method is proved to return, and leave behind, what the specification gives for the state it was entered in.
  - Each method is proved to restore `depth`.
  - A failed `yulAssert` is an `Err` result. The `lastLocation` left behind is the one the printer had reached when the assertion fired.

Properties proved about the specification:

- `WellFormed` gives the exact set of trees the printer accepts, whatever the state it starts in.
- `WithoutSources` shows that with an empty source-index table the output does not depend on the printer state. In that case the `if` delimiter matches the printed body.
- `LocationComments` covers three things:
  - every emitted comment parses back to its form, source index and offsets;
  - the two forms differ in their line breaks;
  - only an immediate repeat of a location is suppressed.
- `Layout` states the `for`-header layout. It also shows worked examples, and an input where the `if` delimiter disagrees with the printed body.

Three points where the code's behaviour is easy to misread:

- With no dialect, `appendTypeName` keeps the suffix of every non-empty type (`libyul/AsmPrinter.cpp:282-293`). Nothing is elided.
- An ExpressionStatement raises the depth before visiting its expression (`libyul/AsmPrinter.cpp:72`). So a call that forms a whole statement gets the expression-form comment.
- An `if` renders its body twice (`libyul/AsmPrinter.cpp:167`, `179`). The delimiter is chosen from the first rendering, which happens before the condition is printed. When location comments are emitted, the two renderings can differ.
  - `Layout.IfDelimiterCanMisjudgeBody` exhibits such an input. There the delimiter is a space, but the printed body starts with a line comment.
  - The misjudged delimiter only decides whether a space or a newline separates the condition from the body. The condition, the body and its comment are printed as in any other `if`.

## Model

| member | source | states |
|---|---|---|
| `AsmPrinterSpec.AppendTypeName` | libyul/AsmPrinter.cpp:280-294 | The suffix is empty or `":" + type`. It is empty exactly when the type is empty, or a dialect is present and either the non-bool type equals the default type or the bool-literal type equals the bool type while the default type is non-empty. |
| `AsmPrinterSpec.LocationComment` | libyul/AsmPrinter.cpp:296-315 | A comment is emitted exactly when there is debug data, it differs from the last emitted location, and its source is in the table. The last location then becomes it; otherwise no text is emitted and the last location is unchanged. |
| `AsmPrinterSpec.BlockLayoutReadsBack` | libyul/AsmPrinter.cpp:262-271 | A non-empty block's layout is braced, gives back exactly the joined statements, and is on one line exactly when the joined text is under 30 characters with no newline. |
| `AsmPrinterSpec.TypedNamesStopAtFailure` | libyul/AsmPrinter.cpp:98-103 | Once a typed name fails its assertion, the whole list fails with that failure and location state. |
| `AsmPrinterSpec.IdentifiersStopAtFailure` | libyul/AsmPrinter.cpp:81-83 | Once an assignment target fails, the whole target list fails with that failure and location state. |
| `AsmPrinterSpec.ArgumentsStopAtFailure` | libyul/AsmPrinter.cpp:155-157 | Once a call argument fails, the whole argument list fails with that failure and location state. |
| `AsmPrinterSpec.StatementsStopAtFailure` | libyul/AsmPrinter.cpp:261-264 | Once a statement of a block fails, the joined body fails with that failure and location state. |
| `AsmPrinterSpec.CasesStopAtFailure` | libyul/AsmPrinter.cpp:194-205 | Once a switch case fails, the remaining cases are not printed and the switch fails with that failure. |
| `AsmPrinter.IndentNewlines` | libyul/AsmPrinter.cpp:269 | The loop returns the body with every newline followed by four spaces (`Indent`), which `Dedent` undoes. |
| `AsmPrinter.Printer.FormatSourceLocationComment` | libyul/AsmPrinter.cpp:296-315 | Returns the comment and updates `lastLocation` exactly as `LocationComment` gives for the old `lastLocation`. |
| `AsmPrinter.Printer.VisitLiteral` | libyul/AsmPrinter.cpp:44-61 | The comment is requested in statement form exactly at depth 0. A number must be decimal or hex and a bool must be `true`/`false`, otherwise that assertion fails. A string is escaped and quoted. The type suffix follows. |
| `AsmPrinter.Printer.VisitIdentifier` | libyul/AsmPrinter.cpp:63-67 | An empty name fails before any comment is emitted. Otherwise the result is the comment (statement form at depth 0) followed by the name. |
| `AsmPrinter.Printer.FormatTypedName` | libyul/AsmPrinter.cpp:274-278 | An empty name fails. Otherwise the result is an expression-form comment, the name and the type suffix (never a bool literal). |
| `AsmPrinter.Printer.FormatTypedNames` | libyul/AsmPrinter.cpp:98-103 | The typed names in order, joined by `", "`, with the location state threaded from left to right. |
| `AsmPrinter.Printer.VisitExpression` | libyul/AsmPrinter.cpp:148-159 | Dispatches on the expression kind and restores the depth. |
| `AsmPrinter.Printer.VisitFunctionCall` | libyul/AsmPrinter.cpp:148-159 | The call's comment comes first, then the function name, then the arguments in order joined by `", "` in parentheses. |
| `AsmPrinter.Printer.VisitStatement` | libyul/AsmPrinter.cpp:237-250 | Dispatches on the statement kind. `break`, `continue` and `leave` are their keyword after a statement-form comment. The depth is restored. |
| `AsmPrinter.Printer.VisitExpressionStatement` | libyul/AsmPrinter.cpp:69-76 | A statement-form comment, then the expression at depth + 1. The depth is restored on every exit. |
| `AsmPrinter.Printer.VisitAssignment` | libyul/AsmPrinter.cpp:78-90 | No target is an assertion failure. The targets are printed at the caller's depth and before the assignment's own comment. Then comes `" := "` and the value at depth + 1. |
| `AsmPrinter.Printer.VisitVariableDeclaration` | libyul/AsmPrinter.cpp:92-110 | The comment, `let `, then the typed names. `" := "` and the value follow only when a value is present. The depth is restored on every exit. |
| `AsmPrinter.Printer.VisitFunctionDefinition` | libyul/AsmPrinter.cpp:112-146 | An empty name fails. Parameters are printed in parentheses. `" -> "` and the return variables follow only when there are return variables. Then a newline and the body at the caller's depth. |
| `AsmPrinter.Printer.VisitIf` | libyul/AsmPrinter.cpp:161-180 | A missing condition fails. The body is rendered once to choose the delimiter, then the condition at depth + 1, then the body again under the updated location state. |
| `AsmPrinter.Printer.VisitSwitch` | libyul/AsmPrinter.cpp:182-192 | A missing selector fails. The comment and selector are printed at depth + 1, then `switch`, then the cases. |
| `AsmPrinter.Printer.VisitCases` | libyul/AsmPrinter.cpp:194-205 | The cases are printed in order with no separator, and the location state is threaded through them. |
| `AsmPrinter.Printer.VisitCase` | libyul/AsmPrinter.cpp:196-204 | A case is `"\ndefault "`, or `"\ncase " + value + " "` with the value at depth + 1. The body follows. |
| `AsmPrinter.Printer.VisitForLoop` | libyul/AsmPrinter.cpp:209-235 | The header line, then the body at the caller's depth. |
| `AsmPrinter.Printer.VisitForHeader` | libyul/AsmPrinter.cpp:211-231 | A missing condition fails. The comment comes first, then init, condition and post at depth + 1, each delimited by the `for` delimiter, ending in a newline. |
| `AsmPrinter.Printer.VisitBlock` | libyul/AsmPrinter.cpp:252-272 | An empty block is the comment and `{ }`. Otherwise the statements are joined by newlines and laid out by `BlockLayout`. The depth on exit equals the depth on entry, which is the block's own assertion. |
| `WellFormed.LiteralOk` | libyul/AsmPrinter.cpp:51-54 | A literal prints exactly when it is a decimal/hex number, `true`/`false`, or a string. |
| `WellFormed.TypedNamesOk` | libyul/AsmPrinter.cpp:276 | A list of typed names prints exactly when every name is non-empty. |
| `WellFormed.IdentifiersOk` | libyul/AsmPrinter.cpp:65 | A list of identifiers prints exactly when every name is non-empty. |
| `WellFormed.ExpressionOk` | libyul/AsmPrinter.cpp:148-159 | An expression prints, from any state, exactly when it is well formed. |
| `WellFormed.ArgumentsOk` | libyul/AsmPrinter.cpp:155-157 | Arguments print exactly when each is well formed. |
| `WellFormed.StatementOk` | libyul/AsmPrinter.cpp:69-250 | A statement prints, from any state, exactly when it is well formed. |
| `WellFormed.AssignmentOk` | libyul/AsmPrinter.cpp:80 | An assignment prints exactly when it has a target, all targets are named and the value is well formed. |
| `WellFormed.VariableDeclarationOk` | libyul/AsmPrinter.cpp:92-110 | A declaration prints exactly when all variables are named and any value is well formed. |
| `WellFormed.FunctionDefinitionOk` | libyul/AsmPrinter.cpp:114 | A definition prints exactly when it is named, all parameters and return variables are named and the body is well formed. |
| `WellFormed.IfOk` | libyul/AsmPrinter.cpp:163 | An `if` prints exactly when it has a well-formed condition and body. |
| `WellFormed.SwitchOk` | libyul/AsmPrinter.cpp:184 | A switch prints exactly when it has a well-formed selector and every case is well formed. |
| `WellFormed.ForLoopOk` | libyul/AsmPrinter.cpp:211 | A for loop prints exactly when it has a condition and all four parts are well formed. |
| `WellFormed.CaseOk` | libyul/AsmPrinter.cpp:196-204 | A case prints exactly when its value, if any, is a valid literal and its body is well formed. |
| `WellFormed.CasesOk` | libyul/AsmPrinter.cpp:194-205 | The cases print exactly when each does. |
| `WellFormed.StatementsOk` | libyul/AsmPrinter.cpp:261-264 | A statement list prints exactly when each statement does. |
| `WellFormed.BlockOk` | libyul/AsmPrinter.cpp:252-272 | A block prints, from any state, exactly when all its statements are well formed. |
| `WithoutSources.CommentWithoutSources` | libyul/AsmPrinter.cpp:298 | With an empty table no comment is emitted and the last location is kept. |
| `WithoutSources.TypedNamesWithoutSources` | libyul/AsmPrinter.cpp:98-103 | With an empty table, typed names print the same from any state and leave the state alone. |
| `WithoutSources.IdentifiersWithoutSources` | libyul/AsmPrinter.cpp:81-83 | The same for assignment targets. |
| `WithoutSources.ExpressionWithoutSources` | libyul/AsmPrinter.cpp:148-159 | The same for expressions, from any depth and last location. |
| `WithoutSources.ArgumentsWithoutSources` | libyul/AsmPrinter.cpp:155-157 | The same for call arguments. |
| `WithoutSources.StatementWithoutSources` | libyul/AsmPrinter.cpp:69-250 | The same for statements. |
| `WithoutSources.AssignmentWithoutSources` | libyul/AsmPrinter.cpp:78-90 | The same for assignments. |
| `WithoutSources.VariableDeclarationWithoutSources` | libyul/AsmPrinter.cpp:92-110 | The same for declarations. |
| `WithoutSources.FunctionDefinitionWithoutSources` | libyul/AsmPrinter.cpp:112-146 | The same for function definitions. |
| `WithoutSources.SwitchWithoutSources` | libyul/AsmPrinter.cpp:182-207 | The same for switches. |
| `WithoutSources.IfWithoutSources` | libyul/AsmPrinter.cpp:161-180 | The same for `if`. |
| `WithoutSources.ForLoopWithoutSources` | libyul/AsmPrinter.cpp:209-235 | The same for `for` loops. |
| `WithoutSources.CaseWithoutSources` | libyul/AsmPrinter.cpp:196-204 | The same for one case. |
| `WithoutSources.CasesWithoutSources` | libyul/AsmPrinter.cpp:194-205 | The same for a list of cases. |
| `WithoutSources.StatementsWithoutSources` | libyul/AsmPrinter.cpp:261-264 | The same for a statement list. |
| `WithoutSources.BlockWithoutSources` | libyul/AsmPrinter.cpp:252-272 | The same for blocks. |
| `WithoutSources.IfLayoutWithoutSources` | libyul/AsmPrinter.cpp:167-179 | With an empty table an `if` is `"if "`, the condition, the delimiter and the printed body. The delimiter is a space exactly when that body has no newline. |
| `LocationComments.SrcPayloadReadsBack` | libyul/AsmPrinter.cpp:307-311 | `index:start:end` splits at the colons back into the source index and the two offsets. |
| `LocationComments.SrcPayloadOneLine` | libyul/AsmPrinter.cpp:307-311 | The payload holds no newline. |
| `LocationComments.LocationCommentReadsBack` | libyul/AsmPrinter.cpp:306-312 | An emitted comment parses back to the requested form, the table's index for the source, and the location's start and end. |
| `LocationComments.LocationCommentLines` | libyul/AsmPrinter.cpp:306-312 | A statement-form comment ends with its only newline. An expression-form comment has none. |
| `LocationComments.RepeatIsSilent` | libyul/AsmPrinter.cpp:298-305 | Right after a location is handled, the same location yields no comment in either form. |
| `LocationComments.ConsecutiveStatementsShareComment` | libyul/AsmPrinter.cpp:259-264 | Two statements at the same new location: only the first carries the comment. |
| `LocationComments.ReturningLocationIsCommentedAgain` | libyul/AsmPrinter.cpp:298-305 | A location that returns after another is commented again: deduplication only looks at the last location. |
| `Layout.ForHeaderOneLine` | libyul/AsmPrinter.cpp:224-234 | The header ends in a newline. Given a one-line condition, it has no other newline exactly when the three parts total under 60 characters and neither init nor post has a newline. |
| `Layout.IfDelimiterFollowsProbe` | libyul/AsmPrinter.cpp:161-180 | Every `if` that prints, from any state, is its comment, `if `, the condition, one delimiter and the printed body. The delimiter is a space exactly when the first rendering of the body, made before the condition, has no newline, and a newline otherwise. |
| `Layout.IfDelimiterCanMisjudgeBody` | libyul/AsmPrinter.cpp:161-180 | There is an `if` whose probed body is `{ }`, so the delimiter is a space, while the printed body starts with a line comment ending in a newline. |
| `Layout.AssignmentExample` | libyul/AsmPrinter.cpp:78-90 | `a, b := f(x)` prints as itself. |
| `Layout.DefaultTypeElidedExample` | libyul/AsmPrinter.cpp:92-110 | With default type `u256`, `let x:u256, y:bool` prints as `let x, y:bool`. |
| `Layout.InlineBlockExample` | libyul/AsmPrinter.cpp:265-266 | A block holding one `break` prints as `{ break }`. |
| `Layout.IndentedBlockExample` | libyul/AsmPrinter.cpp:267-271 | A block of `break` and `continue` prints one indented statement per line. |
| `Text.DedentIndent` | libyul/AsmPrinter.cpp:269 | The newline indentation loses nothing: dedenting gives the original text back. |
| `Text.IndentKeepsNewlines` | libyul/AsmPrinter.cpp:269 | Indentation neither adds nor removes a line break. |
| `Text.IndentConcat` | libyul/AsmPrinter.cpp:269 | The indentation of a concatenation is the concatenation of the indentations. |
| `Text.IndentOneLine` | libyul/AsmPrinter.cpp:269 | Indentation leaves text without a newline unchanged. |
| `Text.HasNewlineIsMembership` | libyul/AsmPrinter.cpp:265 | The recursive newline test agrees with `find('\n') != npos`. |
| `Text.NatToString` | libyul/AsmPrinter.cpp:308 | Non-empty decimal digits with no leading zero. |
| `Text.ParseNatToString` | libyul/AsmPrinter.cpp:308 | The decimal text of a source index reads back as that index. |
| `Text.ParseIntToString` | libyul/AsmPrinter.cpp:310-312 | The decimal text of an offset, negative ones included, reads back as that offset. |
| `CommonData.EscapeAndQuoteString` | libyul/AsmPrinter.cpp:60 | A string literal is printed between double quotes. |
| `CommonData.StringLiteralRoundTrip` | libyul/AsmPrinter.cpp:60 | Unquoting and unescaping the printed literal gives its value back. |
| `CommonData.EscapeHasNoNewline` | libyul/AsmPrinter.cpp:60 | A printed string literal never spans lines. |

## Left out

- `isValidDecimal`, `isValidHex` and `escapeAndQuoteString` belong to libsolutil, which is not part of this model. `CommonData` defines stand-ins.
  - Decimal means digits with no leading zero unless the number is `0`. Hex means `0x` followed by zero or more hex digits, so a bare `0x` is accepted.
  - Escaping handles backslash, quote, `\n`, `\r` and `\t`. Other non-printable characters, which libsolutil writes as `\xNN`, are kept as they are.
- The `AsmPrinter` header is not part of this model.
  - `Printer.constructor` takes the dialect and the source-index table and starts at depth 0.
  - The printer starts with no last location. The source starts from a default `SourceLocation`. A location equal to that default would also be suppressed, and the model does not capture this.
- A `SourceLocation` without a source name is dereferenced at `libyul/AsmPrinter.cpp:301`. Locations are modelled with a name always present.
- `YulString` interning is modelled as plain strings. `shared_ptr<DebugData>` is modelled as an optional location.
- `BlockLayout` and `ForHeaderDelimiter` measure text in characters (`|s|`). The source measures it with `std::string::size()` at `libyul/AsmPrinter.cpp:226` and `:265`, which counts bytes. The two counts agree on ASCII output. They differ for non-ASCII names, types or string contents, and for the non-printable characters that the escaping stand-in keeps where libsolutil writes `\xNN`. On such input the 30- and 60-character thresholds can decide differently from the source.
- The dialect is modelled as an optional pair of type names, its default type and its bool type.
- `std::to_string` is modelled as a decimal rendering of an unbounded integer. The width of `size_t` and `int` is not modelled.
- `std::visit` dispatch is modelled as a `match`. `boost::algorithm::join` is modelled as the left-to-right loops and list functions. `boost::replace_all` is modelled as `Indent`.
- `ScopeGuard` is modelled by restoring the depth on every exit, including exits with an error result. Exception unwinding itself is not modelled.
- An Assignment whose value pointer is null cannot be represented: the value is always present.
- Thread safety is not modelled. A printer instance is used by one caller at a time.
- Reading printed text back with the Yul parser is not part of this model. The read-back functions here (`Dedent`, `ParseLocationComment`, `Unescape`) only invert the printer's own steps.
