/**
 * Stand-ins for the three helpers the printer calls from libsolutil/CommonData.cpp,
 * which is not part of this model: the two number-literal checks and the string
 * literal quoting. They follow libsolutil's conventions; the printer only relies on
 * them through the properties proved here.
 */
module CommonData {
  import opened Text

  predicate IsHexDigit(c: char)
  {
    IsDigit(c) || 'a' <= c <= 'f' || 'A' <= c <= 'F'
  }

  /** Decimal text: non-empty, digits only, and no leading zero unless it is "0". */
  predicate IsValidDecimal(s: string)
  {
    s != [] && IsDigits(s) && (s[0] == '0' ==> s == "0")
  }

  /** Hexadecimal text: "0x" followed by hexadecimal digits only. */
  predicate IsValidHex(s: string)
  {
    |s| >= 2 && s[..2] == "0x" && forall i :: 2 <= i < |s| ==> IsHexDigit(s[i])
  }

  /** The escape sequence one character of a string literal is written as. */
  function EscapeChar(c: char): string
  {
    if c == '\\' then "\\\\"
    else if c == '"' then "\\\""
    else if c == '\n' then "\\n"
    else if c == '\r' then "\\r"
    else if c == '\t' then "\\t"
    else [c]
  }

  function Escape(s: string): string
  {
    if s == [] then [] else EscapeChar(s[0]) + Escape(s[1..])
  }

  /** `escapeAndQuoteString`: the escaped text between double quotes. */
  function EscapeAndQuoteString(s: string): (r: string)
    ensures |r| >= 2 && r[0] == '"' && r[|r| - 1] == '"'
  {
    "\"" + Escape(s) + "\""
  }

  /** The character an escape sequence `\c` stands for. */
  function UnescapeChar(c: char): char
  {
    if c == 'n' then '\n' else if c == 'r' then '\r' else if c == 't' then '\t' else c
  }

  /** How a reader of the printed text turns an escaped string body back into its value. */
  function Unescape(s: string): string
    decreases |s|
  {
    if s == [] then []
    else if s[0] == '\\' && |s| >= 2 then [UnescapeChar(s[1])] + Unescape(s[2..])
    else [s[0]] + Unescape(s[1..])
  }

  /** The value of a quoted literal, read back from its printed form. */
  function UnquoteString(r: string): string
  {
    if |r| >= 2 then Unescape(r[1..|r| - 1]) else []
  }

  lemma {:induction false} UnescapeEscape(s: string)
    ensures Unescape(Escape(s)) == s
  {
    if s != [] {
      UnescapeEscape(s[1..]);
      assert Escape(s) == EscapeChar(s[0]) + Escape(s[1..]);
      UnescapeEscapeChar(s[0], Escape(s[1..]));
      assert [s[0]] + s[1..] == s;
    }
  }

  /** Reading back one escaped character consumes exactly its escape. */
  lemma UnescapeEscapeChar(c: char, rest: string)
    ensures Unescape(EscapeChar(c) + rest) == [c] + Unescape(rest)
  {
    var e := EscapeChar(c) + rest;
    if |EscapeChar(c)| == 2 {
      assert e[2..] == rest;
    } else {
      assert e[1..] == rest;
    }
  }

  /** A string literal prints as text that reads back as the same value. */
  lemma StringLiteralRoundTrip(s: string)
    ensures UnquoteString(EscapeAndQuoteString(s)) == s
  {
    var r := EscapeAndQuoteString(s);
    assert r[1..|r| - 1] == Escape(s);
    UnescapeEscape(s);
  }

  /** A printed string literal never spans lines, whatever its value holds. */
  lemma {:induction false} EscapeHasNoNewline(s: string)
    ensures '\n' !in Escape(s)
  {
    if s != [] {
      EscapeHasNoNewline(s[1..]);
    }
  }
}
