/**
 * The `@src` comments the printer emits: how they read back, their two forms,
 * and which locations are suppressed as repeats.
 */
module LocationComments {
  import opened Wrappers
  import opened Text
  import opened YulAst
  import opened AsmPrinterSpec

  /** What an `@src` comment carries: its form, the source index and the two offsets. */
  datatype SrcComment = SrcComment(statement: bool, index: nat, start: int, end: int)

  /** Reads `index:start:end` back. */
  function ParseSrcPayload(payload: string): (r: Option<(nat, int, int)>)
    ensures r.Some? ==> |Split(payload, ':')| == 3
  {
    var parts := Split(payload, ':');
    if |parts| != 3 then None
    else
      match (ParseNat(parts[0]), ParseInt(parts[1]), ParseInt(parts[2]))
      case (Some(index), Some(start), Some(end)) => Some((index, start, end))
      case _ => None
  }

  /** Reads a comment in either form back, or nothing when the text is not one. */
  function ParseLocationComment(text: string): Option<SrcComment>
  {
    if |text| >= 10 && text[..9] == "/// @src " && text[|text| - 1] == '\n' then
      match ParseSrcPayload(text[9..|text| - 1])
      case Some((index, start, end)) => Some(SrcComment(true, index, start, end))
      case None => None
    else if |text| >= 13 && text[..9] == "/** @src " && text[|text| - 4..] == " */ " then
      match ParseSrcPayload(text[9..|text| - 4])
      case Some((index, start, end)) => Some(SrcComment(false, index, start, end))
      case None => None
    else None
  }

  lemma NoColonInDigits(s: string)
    requires forall k :: 0 <= k < |s| ==> IsDigit(s[k]) || (k == 0 && s[k] == '-')
    ensures ':' !in s && '\n' !in s
  {
  }

  /** The payload reads back as the index and the two offsets it was made of. */
  lemma SrcPayloadReadsBack(index: nat, loc: Location)
    ensures ParseSrcPayload(SrcPayload(index, loc)) == Some((index, loc.start, loc.end))
  {
    var a, b, c := NatToString(index), IntToString(loc.start), IntToString(loc.end);
    NoColonInDigits(a);
    NoColonInDigits(b);
    NoColonInDigits(c);
    assert SrcPayload(index, loc) == a + [':'] + (b + [':'] + c);
    SplitCons(a, ':', b + [':'] + c);
    SplitCons(b, ':', c);
    SplitSingle(c, ':');
    assert Split(SrcPayload(index, loc), ':') == [a, b, c];
    ParseNatToString(index);
    ParseIntToString(loc.start);
    ParseIntToString(loc.end);
  }

  /** The payload never spans lines. */
  lemma SrcPayloadOneLine(index: nat, loc: Location)
    ensures !HasNewline(SrcPayload(index, loc))
  {
    var a, b, c := NatToString(index), IntToString(loc.start), IntToString(loc.end);
    NoColonInDigits(a);
    NoColonInDigits(b);
    NoColonInDigits(c);
    HasNewlineIsMembership(SrcPayload(index, loc));
  }

  /**
   * An emitted comment reads back as the form that was asked for, the table's
   * index of the source and the location's offsets.
   */
  lemma LocationCommentReadsBack(env: Env, last: Option<Location>, debugData: Option<Location>, statement: bool)
    requires LocationComment(env, last, debugData, statement).text != []
    ensures ParseLocationComment(LocationComment(env, last, debugData, statement).text) ==
      Some(SrcComment(statement, env.nameToSourceIndex[debugData.value.sourceName], debugData.value.start, debugData.value.end))
  {
    var index := env.nameToSourceIndex[debugData.value.sourceName];
    var payload := SrcPayload(index, debugData.value);
    SrcPayloadReadsBack(index, debugData.value);
    if statement {
      StatementCommentParts(payload);
    } else {
      ExpressionCommentParts(payload);
    }
  }

  lemma StatementCommentParts(payload: string)
    ensures var t := "/// @src " + payload + "\n";
      t[..9] == "/// @src " && t[9..|t| - 1] == payload && t[..|t| - 1] == "/// @src " + payload
  {
  }

  lemma ExpressionCommentParts(payload: string)
    ensures var t := "/** @src " + payload + " */ ";
      t[..9] == "/** @src " && t[9..|t| - 4] == payload && t[|t| - 4..] == " */ "
  {
  }

  /**
   * A statement-form comment ends its line and holds no other newline; an
   * expression-form comment holds none, so it never breaks the line it is on.
   */
  lemma LocationCommentLines(env: Env, last: Option<Location>, debugData: Option<Location>, statement: bool)
    requires LocationComment(env, last, debugData, statement).text != []
    ensures var t := LocationComment(env, last, debugData, statement).text;
      if statement then t[|t| - 1] == '\n' && !HasNewline(t[..|t| - 1]) else !HasNewline(t)
  {
    var index := env.nameToSourceIndex[debugData.value.sourceName];
    var payload := SrcPayload(index, debugData.value);
    SrcPayloadOneLine(index, debugData.value);
    if statement {
      StatementCommentParts(payload);
      HasNewlineIsMembership("/// @src ");
      HasNewlineConcat("/// @src ", payload);
    } else {
      ExpressionCommentOneLine(payload);
    }
  }

  lemma ExpressionCommentOneLine(payload: string)
    requires !HasNewline(payload)
    ensures !HasNewline("/** @src " + payload + " */ ")
  {
    HasNewlineIsMembership("/** @src ");
    HasNewlineIsMembership(" */ ");
    HasNewlineConcat("/** @src " + payload, " */ ");
    HasNewlineConcat("/** @src ", payload);
  }

  /** A location right after itself is never commented again, in either form. */
  lemma RepeatIsSilent(env: Env, last: Option<Location>, debugData: Option<Location>, first: bool, second: bool)
    ensures var c := LocationComment(env, last, debugData, first);
      LocationComment(env, c.last, debugData, second) == Comment([], c.last)
  {
  }

  /** Two statements at the same new location: only the first carries its comment. */
  lemma ConsecutiveStatementsShareComment(env: Env, loc: Location, depth: nat, last: Option<Location>)
    requires Some(loc) != last && loc.sourceName in env.nameToSourceIndex
    ensures var c := LocationComment(env, last, Some(loc), true);
      c.text != [] &&
      RenderStatements(env, [Break(Some(loc)), Continue(Some(loc))], depth, last) ==
        Rendered(Ok(c.text + "break\ncontinue"), Some(loc))
  {
    var c := LocationComment(env, last, Some(loc), true);
    var statements := [Break(Some(loc)), Continue(Some(loc))];
    assert statements[..1] == [Break(Some(loc))];
    assert statements[..1][..0] == [];
    assert RenderStatements(env, statements[..1], depth, last) == Rendered(Ok(c.text + "break"), Some(loc)) by {
      assert [] + [] + (c.text + "break") == c.text + "break";
    }
    assert c.text + "break" + "\n" + ([] + "continue") == c.text + "break\ncontinue";
  }

  /**
   * Only a repeat of the last emitted location is suppressed: a location that
   * comes back after another one is commented again.
   */
  lemma ReturningLocationIsCommentedAgain(env: Env, a: Location, b: Location, depth: nat)
    requires a != b && a.sourceName in env.nameToSourceIndex && b.sourceName in env.nameToSourceIndex
    ensures var ca := LocationComment(env, None, Some(a), true);
      var cb := LocationComment(env, Some(a), Some(b), true);
      RenderStatements(env, [Break(Some(a)), Break(Some(b)), Break(Some(a))], depth, None) ==
        Rendered(Ok(ca.text + "break\n" + cb.text + "break\n" + ca.text + "break"), Some(a))
  {
    var ca := LocationComment(env, None, Some(a), true);
    var cb := LocationComment(env, Some(a), Some(b), true);
    var statements := [Break(Some(a)), Break(Some(b)), Break(Some(a))];
    assert statements[..2] == [Break(Some(a)), Break(Some(b))];
    assert statements[..2][..1] == [Break(Some(a))];
    assert statements[..2][..1][..0] == [];
    assert RenderStatements(env, statements[..1], depth, None) == Rendered(Ok(ca.text + "break"), Some(a)) by {
      assert [] + [] + (ca.text + "break") == ca.text + "break";
    }
    assert RenderStatements(env, statements[..2], depth, None) == Rendered(Ok(ca.text + "break\n" + cb.text + "break"), Some(b)) by {
      assert ca.text + "break" + "\n" + (cb.text + "break") == ca.text + "break\n" + cb.text + "break";
    }
    assert LocationComment(env, Some(b), Some(a), true) == ca;
    assert ca.text + "break\n" + cb.text + "break" + "\n" + (ca.text + "break")
        == ca.text + "break\n" + cb.text + "break\n" + ca.text + "break";
  }
}
