/**
 * Small string operations the printer relies on: the newline indentation that
 * `boost::replace_all(body, "\n", "\n    ")` performs, decimal rendering of
 * numbers (`std::to_string`), and their inverses, used to state what the
 * printed text still carries.
 */
module Text {
  import opened Wrappers

  /** What one character becomes when every newline is followed by a four-space indent. */
  function IndentChar(c: char): string
  {
    if c == '\n' then "\n    " else [c]
  }

  /** Every "\n" of `s` replaced by "\n    ". */
  function Indent(s: string): string
  {
    if s == [] then [] else IndentChar(s[0]) + Indent(s[1..])
  }

  /** Removes the four spaces following every newline that has them. */
  function Dedent(s: string): string
    decreases |s|
  {
    if s == [] then []
    else if |s| >= 5 && s[..5] == "\n    " then "\n" + Dedent(s[5..])
    else [s[0]] + Dedent(s[1..])
  }

  /** Indenting loses nothing: the original text comes back. */
  lemma {:induction false} DedentIndent(s: string)
    ensures Dedent(Indent(s)) == s
  {
    if s != [] {
      DedentIndent(s[1..]);
      var rest := Indent(s[1..]);
      if s[0] == '\n' {
        assert Indent(s) == "\n    " + rest;
        assert (Indent(s))[5..] == rest;
      } else {
        assert Indent(s) == [s[0]] + rest;
        assert (Indent(s))[1..] == rest;
      }
    }
  }

  /** Indenting works character by character, so it can be built from left to right. */
  lemma {:induction false} IndentSnoc(s: string, c: char)
    ensures Indent(s + [c]) == Indent(s) + IndentChar(c)
  {
    if s == [] {
      assert [c][1..] == [];
    } else {
      assert (s + [c])[1..] == s[1..] + [c];
      IndentSnoc(s[1..], c);
    }
  }

  /** Indenting a concatenation indents each part. */
  lemma {:induction false} IndentConcat(a: string, b: string)
    ensures Indent(a + b) == Indent(a) + Indent(b)
  {
    if a == [] {
      assert a + b == b;
    } else {
      assert (a + b)[1..] == a[1..] + b;
      IndentConcat(a[1..], b);
    }
  }

  /** A line without a break is left as it is. */
  lemma {:induction false} IndentOneLine(s: string)
    requires !HasNewline(s)
    ensures Indent(s) == s
  {
    if s != [] {
      IndentOneLine(s[1..]);
      assert s == [s[0]] + s[1..];
    }
  }

  /** Indenting adds no line break and removes none. */
  lemma {:induction false} IndentKeepsNewlines(s: string)
    ensures HasNewline(Indent(s)) <==> HasNewline(s)
  {
    if s != [] {
      IndentKeepsNewlines(s[1..]);
      HasNewlineConcat(IndentChar(s[0]), Indent(s[1..]));
    }
  }

  /** Whether `s` contains a line break (`s.find('\n') != string::npos`). */
  predicate HasNewline(s: string)
  {
    s != [] && (s[0] == '\n' || HasNewline(s[1..]))
  }

  lemma {:induction false} HasNewlineIsMembership(s: string)
    ensures HasNewline(s) <==> '\n' in s
  {
    if s != [] {
      HasNewlineIsMembership(s[1..]);
      assert s == [s[0]] + s[1..];
    }
  }

  lemma {:induction false} HasNewlineConcat(a: string, b: string)
    ensures HasNewline(a + b) <==> HasNewline(a) || HasNewline(b)
  {
    if a != [] {
      assert (a + b)[1..] == a[1..] + b;
      HasNewlineConcat(a[1..], b);
    } else {
      assert a + b == b;
    }
  }

  predicate IsDigit(c: char)
  {
    '0' <= c <= '9'
  }

  predicate IsDigits(s: string)
  {
    forall i :: 0 <= i < |s| ==> IsDigit(s[i])
  }

  function DigitChar(d: nat): (c: char)
    requires d < 10
    ensures IsDigit(c) && c as int - '0' as int == d
  {
    (d + '0' as int) as char
  }

  /** Decimal digits of `n`, most significant first, without leading zeros (`std::to_string`). */
  function NatToString(n: nat): (r: string)
    ensures |r| > 0 && IsDigits(r)
    ensures |r| > 1 ==> r[0] != '0'
  {
    if n < 10 then [DigitChar(n)] else NatToString(n / 10) + [DigitChar(n % 10)]
  }

  /** `std::to_string` of a signed integer: a minus sign, then the digits of the magnitude. */
  function IntToString(i: int): (r: string)
    ensures |r| > 0
    ensures forall k :: 0 <= k < |r| ==> IsDigit(r[k]) || (k == 0 && r[k] == '-')
  {
    if i < 0 then "-" + NatToString(-i) else NatToString(i)
  }

  /** The number a non-empty string of decimal digits denotes; None for anything else. */
  function ParseNat(s: string): (r: Option<nat>)
    ensures r.Some? <==> |s| > 0 && IsDigits(s)
  {
    if |s| == 0 || !IsDigit(s[|s| - 1]) then None
    else if |s| == 1 then Some(s[0] as int - '0' as int)
    else match ParseNat(s[..|s| - 1])
      case None => None
      case Some(p) => Some(p * 10 + (s[|s| - 1] as int - '0' as int))
  }

  /** The integer an optional minus sign followed by decimal digits denotes. */
  function ParseInt(s: string): Option<int>
  {
    if |s| > 0 && s[0] == '-' then
      match ParseNat(s[1..])
      case None => None
      case Some(n) => Some(0 - n)
    else
      match ParseNat(s)
      case None => None
      case Some(n) => Some(n)
  }

  lemma {:induction false} ParseNatToString(n: nat)
    ensures ParseNat(NatToString(n)) == Some(n)
  {
    if n >= 10 {
      var s := NatToString(n);
      var p := NatToString(n / 10);
      assert s == p + [DigitChar(n % 10)];
      assert s[..|s| - 1] == p;
      ParseNatToString(n / 10);
    }
  }

  lemma ParseIntToString(i: int)
    ensures ParseInt(IntToString(i)) == Some(i)
  {
    if i < 0 {
      var s := IntToString(i);
      assert s[1..] == NatToString(-i);
      ParseNatToString(-i);
    } else {
      ParseNatToString(i);
    }
  }

  /** Position of the first `c` in `s`, or |s| when there is none. */
  function FirstIndexOf(s: string, c: char): (k: nat)
    ensures k <= |s|
    ensures k < |s| ==> s[k] == c
    ensures forall j :: 0 <= j < k ==> s[j] != c
  {
    if s == [] then 0
    else if s[0] == c then 0
    else 1 + FirstIndexOf(s[1..], c)
  }

  /** The pieces of `s` between occurrences of the separator `c`. */
  function Split(s: string, c: char): (parts: seq<string>)
    ensures |parts| > 0
    decreases |s|
  {
    var k := FirstIndexOf(s, c);
    if k == |s| then [s] else [s[..k]] + Split(s[k + 1..], c)
  }

  lemma SplitCons(a: string, c: char, rest: string)
    requires c !in a
    ensures Split(a + [c] + rest, c) == [a] + Split(rest, c)
  {
    var s := a + [c] + rest;
    var k := FirstIndexOf(s, c);
    assert forall j :: 0 <= j < |a| ==> s[j] == a[j] && s[j] != c;
    assert s[|a|] == c;
    assert k == |a|;
    assert s[..k] == a;
    assert s[k + 1..] == rest;
  }

  lemma SplitSingle(a: string, c: char)
    requires c !in a
    ensures Split(a, c) == [a]
  {
    assert forall j :: 0 <= j < |a| ==> a[j] != c;
  }
}
