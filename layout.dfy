/**
 * The layout decisions of the printer, and what they look like on small trees.
 */
module Layout {
  import opened Wrappers
  import opened Text
  import opened CommonData
  import opened YulAst
  import opened AsmPrinterSpec

  /**
   * A `for` header always ends its line. Given a condition on one line, the
   * header holds no other newline exactly when init, condition and post are
   * short together and init and post are each on one line.
   */
  lemma ForHeaderOneLine(pre: string, condition: string, post: string)
    requires !HasNewline(condition)
    ensures var h := ForHeader(pre, condition, post);
      h[|h| - 1] == '\n' &&
      (!HasNewline(h[..|h| - 1]) <==>
        |pre| + |condition| + |post| < ForHeaderInlineLimit && !HasNewline(pre) && !HasNewline(post))
  {
    var d := ForHeaderDelimiter(pre, condition, post);
    var h := ForHeader(pre, condition, post);
    var line := "for " + pre + [d] + condition + [d] + post;
    assert h == line + "\n";
    assert h[..|h| - 1] == line;
    HasNewlineIsMembership("for ");
    HasNewlineIsMembership([d]);
    HasNewlineConcat("for ", pre);
    HasNewlineConcat("for " + pre, [d]);
    HasNewlineConcat("for " + pre + [d], condition);
    HasNewlineConcat("for " + pre + [d] + condition, [d]);
    HasNewlineConcat("for " + pre + [d] + condition + [d], post);
  }

  /**
   * Every `if` that prints is its comment, `if `, the condition, one delimiter
   * and the printed body; the delimiter is a space exactly when the first
   * rendering of the body, made before the condition, has no newline, and a
   * newline otherwise.
   */
  lemma IfDelimiterFollowsProbe(env: Env, s: Statement, depth: nat, last: Option<Location>)
    requires s.If? && RenderIf(env, s, depth, last).text.Ok?
    ensures s.condition.Some?
    ensures var c := LocationComment(env, last, s.debugData, true);
      var probe := RenderBlock(env, s.body, depth, c.last);
      var cond := RenderExpression(env, s.condition.value, depth + 1, probe.last);
      var body := RenderBlock(env, s.body, depth, cond.last);
      var out := RenderIf(env, s, depth, last).text.value;
      var head := c.text + "if " + cond.text.value;
      && probe.text.Ok? && cond.text.Ok? && body.text.Ok?
      && |out| == |head| + 1 + |body.text.value|
      && out[..|head|] == head
      && out[|head| + 1..] == body.text.value
      && (out[|head|] == ' ' <==> !HasNewline(probe.text.value))
      && (out[|head|] == ' ' || out[|head|] == '\n')
  {
    var c := LocationComment(env, last, s.debugData, true);
    var probe := RenderBlock(env, s.body, depth, c.last);
    var cond := RenderExpression(env, s.condition.value, depth + 1, probe.last);
    var body := RenderBlock(env, s.body, depth, cond.last);
    var head := c.text + "if " + cond.text.value;
    var d := IfDelimiter(probe.text.value);
    assert RenderIf(env, s, depth, last).text.value == head + [d] + body.text.value;
  }

  /**
   * The two renderings of an `if` body can disagree. Take an `if` at location
   * `a` whose condition is a literal at another location `b` and whose body is
   * an empty block at `a` again. The first rendering of the body, right after
   * the `if`'s own comment, repeats `a` and is the bare `{ }`, so the delimiter
   * is a space; the printed body comes after the condition's comment, so it
   * carries the statement-form comment for `a`, which ends in a newline.
   */
  lemma IfDelimiterCanMisjudgeBody(env: Env, a: Location, b: Location)
    requires a != b && a.sourceName in env.nameToSourceIndex && b.sourceName in env.nameToSourceIndex
    ensures var s := If(Some(a), Some(LiteralExpression(Literal(Some(b), Number, "1", ""))), Block(Some(a), []));
      var ca := LocationComment(env, None, Some(a), true);
      var cb := LocationComment(env, Some(a), Some(b), false);
      && RenderBlock(env, s.body, 0, ca.last) == Rendered(Ok("{ }"), Some(a))
      && RenderIf(env, s, 0, None) == Rendered(Ok(ca.text + "if " + (cb.text + "1") + " " + (ca.text + "{ }")), Some(a))
      && ca.text[|ca.text| - 1] == '\n'
  {
    var s := If(Some(a), Some(LiteralExpression(Literal(Some(b), Number, "1", ""))), Block(Some(a), []));
    var ca := LocationComment(env, None, Some(a), true);
    var cb := LocationComment(env, Some(a), Some(b), false);
    assert IsValidDecimal("1");
    assert AppendTypeName(env.dialect, "", false) == [];
    assert RenderExpression(env, s.condition.value, 1, Some(a)) == Rendered(Ok(cb.text + "1"), Some(b)) by {
      assert cb.text + "1" + [] == cb.text + "1";
    }
    assert RenderBlock(env, s.body, 0, Some(a)) == Rendered(Ok("{ }"), Some(a)) by { assert [] + "{ }" == "{ }"; }
    assert LocationComment(env, Some(b), Some(a), true) == ca;
    assert RenderBlock(env, s.body, 0, Some(b)) == Rendered(Ok(ca.text + "{ }"), Some(a));
    assert IfDelimiter("{ }") == ' ' by { HasNewlineIsMembership("{ }"); }
  }

  /** Without a table and a dialect: `a, b := f(x)`. */
  lemma AssignmentExample()
    ensures var s := Assignment(None, [Identifier(None, "a"), Identifier(None, "b")],
                                FunctionCall(None, Identifier(None, "f"), [IdentifierExpression(Identifier(None, "x"))]));
      RenderStatement(Env(None, map[]), s, 0, None) == Rendered(Ok("a, b := f(x)"), None)
  {
    var env := Env(None, map[]);
    var a, b, f := Identifier(None, "a"), Identifier(None, "b"), Identifier(None, "f");
    var names := [a, b];
    assert names[..1] == [a];
    assert [a][..0] == [];
    assert RenderIdentifier(env, a, 0, None) == Rendered(Ok("a"), None) by { assert [] + "a" == "a"; }
    assert RenderIdentifier(env, b, 0, None) == Rendered(Ok("b"), None) by { assert [] + "b" == "b"; }
    assert RenderIdentifiers(env, [a], 0, None) == Rendered(Ok("a"), None) by { assert [] + [] + "a" == "a"; }
    assert RenderIdentifiers(env, names, 0, None) == Rendered(Ok("a, b"), None) by { assert "a" + ", " + "b" == "a, b"; }
    var x := IdentifierExpression(Identifier(None, "x"));
    assert [x][..0] == [];
    assert RenderExpression(env, x, 1, None) == Rendered(Ok("x"), None) by { assert [] + "x" == "x"; }
    assert RenderArguments(env, [x], 1, None) == Rendered(Ok("x"), None) by { assert [] + [] + "x" == "x"; }
    assert RenderIdentifier(env, f, 1, None) == Rendered(Ok("f"), None) by { assert [] + "f" == "f"; }
    assert RenderExpression(env, FunctionCall(None, f, [x]), 1, None) == Rendered(Ok("f(x)"), None) by {
      assert [] + "f" + "(" + "x" + ")" == "f(x)";
    }
    assert [] + "a, b" + " := " + "f(x)" == "a, b := f(x)";
  }

  /** Types equal to the dialect's default type are left out: `let x, y:bool`. */
  lemma DefaultTypeElidedExample()
    ensures var env := Env(Some(Dialect("u256", "bool")), map[]);
      var s := VariableDeclaration(None, [TypedName(None, "x", "u256"), TypedName(None, "y", "bool")], None);
      RenderStatement(env, s, 0, None) == Rendered(Ok("let x, y:bool"), None)
  {
    var env := Env(Some(Dialect("u256", "bool")), map[]);
    var x, y := TypedName(None, "x", "u256"), TypedName(None, "y", "bool");
    var variables := [x, y];
    assert variables[..1] == [x];
    assert [x][..0] == [];
    assert AppendTypeName(env.dialect, "u256", false) == [];
    assert AppendTypeName(env.dialect, "bool", false) == ":bool";
    assert RenderTypedName(env, x, None) == Rendered(Ok("x"), None) by { assert [] + "x" + [] == "x"; }
    assert RenderTypedName(env, y, None) == Rendered(Ok("y:bool"), None) by { assert [] + "y" + ":bool" == "y:bool"; }
    assert RenderTypedNames(env, [x], None) == Rendered(Ok("x"), None) by { assert [] + [] + "x" == "x"; }
    assert RenderTypedNames(env, variables, None) == Rendered(Ok("x, y:bool"), None) by {
      assert "x" + ", " + "y:bool" == "x, y:bool";
    }
    assert [] + "let " + "x, y:bool" == "let x, y:bool";
  }

  /** One short statement stays inline: `{ break }`. */
  lemma InlineBlockExample()
    ensures RenderBlock(Env(None, map[]), Block(None, [Break(None)]), 0, None) == Rendered(Ok("{ " + "break" + " }"), None)
  {
    var env := Env(None, map[]);
    SingleBreak(env);
    assert !HasNewline("break") by { HasNewlineIsMembership("break"); }
    assert BlockLayout("break") == "{ " + "break" + " }";
    assert RenderBlock(env, Block(None, [Break(None)]), 0, None) == Rendered(Ok([] + BlockLayout("break")), None);
    assert [] + BlockLayout("break") == BlockLayout("break");
  }

  lemma SingleBreak(env: Env)
    requires env.nameToSourceIndex == map[]
    ensures RenderStatements(env, [Break(None)], 0, None) == Rendered(Ok("break"), None)
  {
    assert [Break(None)][..0] == [];
    assert RenderStatement(env, Break(None), 0, None) == Rendered(Ok("break"), None) by { assert [] + "break" == "break"; }
    assert [] + [] + "break" == "break";
  }

  /** Two statements are joined by a newline, so the block is laid out one statement per line. */
  lemma IndentedBlockExample()
    ensures RenderBlock(Env(None, map[]), Block(None, [Break(None), Continue(None)]), 0, None)
      == Rendered(Ok("{\n    " + ("break" + "\n    " + "continue") + "\n}"), None)
  {
    var env := Env(None, map[]);
    var body := "break" + "\n" + "continue";
    BreakThenContinue(env);
    BreakThenContinueIndented();
    assert BlockLayout(body) == "{\n    " + ("break" + "\n    " + "continue") + "\n}";
    assert RenderBlock(env, Block(None, [Break(None), Continue(None)]), 0, None) == Rendered(Ok([] + BlockLayout(body)), None);
    assert [] + BlockLayout(body) == BlockLayout(body);
  }

  lemma BreakThenContinue(env: Env)
    requires env.nameToSourceIndex == map[]
    ensures RenderStatements(env, [Break(None), Continue(None)], 0, None) == Rendered(Ok("break" + "\n" + "continue"), None)
  {
    var statements := [Break(None), Continue(None)];
    assert statements[..1] == [Break(None)];
    SingleBreak(env);
    assert RenderStatement(env, Continue(None), 0, None) == Rendered(Ok("continue"), None) by {
      assert [] + "continue" == "continue";
    }
  }

  lemma BreakThenContinueIndented()
    ensures HasNewline("break" + "\n" + "continue")
    ensures Indent("break" + "\n" + "continue") == "break" + "\n    " + "continue"
  {
    HasNewlineConcat("break" + "\n", "continue");
    HasNewlineConcat("break", "\n");
    IndentConcat("break" + "\n", "continue");
    IndentConcat("break", "\n");
    HasNewlineIsMembership("break");
    HasNewlineIsMembership("continue");
    IndentOneLine("break");
    IndentOneLine("continue");
    assert Indent("\n") == "\n    ";
  }
}
