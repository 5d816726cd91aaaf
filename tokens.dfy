/**
 * Character-level recognizers standing for the lexer's `Token` functions.
 * Each one consumes a prefix of its input and returns the rest, or fails with
 * a recoverable error carrying the input it was given.
 */
module Tokens {
  import opened Nom

  predicate IsWhitespace(c: char) { c == ' ' || c == '\t' || c == '\n' || c == '\r' }

  predicate IsDigit(c: char) { '0' <= c <= '9' }

  predicate IsIdentStart(c: char) { 'a' <= c <= 'z' || 'A' <= c <= 'Z' || c == '_' }

  predicate IsIdentChar(c: char) { IsIdentStart(c) || IsDigit(c) }

  predicate IsNotQuote(c: char) { c != '"' }

  /** The characters that start an operator token in an expression. */
  predicate IsOperator(c: char) {
    c == '+' || c == '-' || c == '*' || c == '/' || c == '(' || c == ')'
  }

  ghost predicate AllDigits(s: string) {
    forall i :: 0 <= i < |s| ==> IsDigit(s[i])
  }

  /** Length of the longest prefix of `s` whose characters all satisfy `cls`. */
  function Span(s: string, cls: char -> bool): (n: nat)
    ensures n <= |s|
    decreases |s|
  {
    if |s| > 0 && cls(s[0]) then 1 + Span(s[1..], cls) else 0
  }

  /** The span is maximal: all its characters are in the class, the next one is not. */
  lemma {:induction false} SpanMaximal(s: string, cls: char -> bool)
    ensures forall i :: 0 <= i < Span(s, cls) ==> cls(s[i])
    ensures Span(s, cls) < |s| ==> !cls(s[Span(s, cls)])
    decreases |s|
  {
    if |s| > 0 && cls(s[0]) {
      SpanMaximal(s[1..], cls);
    }
  }

  /** A run of `cls` characters followed by one outside `cls` spans exactly that run. */
  lemma {:induction false} SpanOfConcat(a: string, b: string, cls: char -> bool)
    requires forall i :: 0 <= i < |a| ==> cls(a[i])
    requires b == [] || !cls(b[0])
    ensures Span(a + b, cls) == |a|
    decreases |a|
  {
    if a != [] {
      assert (a + b)[1..] == a[1..] + b;
      SpanOfConcat(a[1..], b, cls);
    }
  }

  function Fail<T>(input: string): IResult<T> {
    Err(Error(PError(input, ErrorKind.Tag)))
  }

  /** `s` begins with `t`. */
  predicate StartsWith(s: string, t: string)
    ensures StartsWith(s, t) <==> |t| <= |s| && s[..|t|] == t
    decreases |t|
  {
    t == [] || (s != [] && s[0] == t[0] && StartsWith(s[1..], t[1..]))
  }

  /** `tag(t)`: the literal text `t`. */
  function Tag(t: string, input: string): (r: IResult<string>)
    ensures r.Ok? <==> StartsWith(input, t)
    ensures r.Ok? ==> |t| <= |input| && r == Ok(input[|t|..], t)
    ensures r.Err? ==> r == Fail(input)
  {
    if StartsWith(input, t) then Ok(input[|t|..], t) else Fail(input)
  }

  function Comma(input: string): IResult<string> { Tag(",", input) }
  function Colon(input: string): IResult<string> { Tag(":", input) }
  function Equal(input: string): IResult<string> { Tag("=", input) }
  function Semicolon(input: string): IResult<string> { Tag(";", input) }
  function LeftParenthesis(input: string): IResult<string> { Tag("(", input) }
  function RightParenthesis(input: string): IResult<string> { Tag(")", input) }
  function Arrow(input: string): IResult<string> { Tag("->", input) }
  function Add(input: string): IResult<string> { Tag("+", input) }
  function Sub(input: string): IResult<string> { Tag("-", input) }
  function Mul(input: string): IResult<string> { Tag("*", input) }
  function Div(input: string): IResult<string> { Tag("/", input) }

  /** The `mut` keyword, which must be followed by a space so that an
      identifier such as `mut_x` is not taken for it. */
  function MutTok(input: string): IResult<string> { Tag("mut ", input) }

  /** Skip any whitespace; never fails. */
  function MaybeConsumeWhitespaces(input: string): (r: IResult<string>)
    ensures r.Ok? && |r.value| <= |input| && r.rest == input[|r.value|..]
    decreases |input|
  {
    if input != [] && IsWhitespace(input[0]) then
      var r := MaybeConsumeWhitespaces(input[1..]);
      Ok(r.rest, [input[0]] + r.value)
    else Ok(input, "")
  }

  /** Skip one or more whitespace characters. */
  function ConsumeWhitespaces(input: string): (r: IResult<string>)
    ensures r.Ok? <==> input != [] && IsWhitespace(input[0])
    ensures r.Ok? ==> r == MaybeConsumeWhitespaces(input)
    ensures r.Err? ==> r == Fail(input)
  {
    var w := MaybeConsumeWhitespaces(input);
    if w.value == [] then Fail(input) else w
  }

  /** Skip insignificant characters between tokens; comments are not part of
      this model, so this skips whitespace. */
  function MaybeConsumeExtra(input: string): (r: IResult<string>)
    ensures r.Ok? && |r.value| <= |input| && r.rest == input[|r.value|..]
  {
    MaybeConsumeWhitespaces(input)
  }

  /** An identifier: a letter or `_`, then letters, digits and `_`; the
      whitespace after it is skipped, so that `-> int {` leaves `{`. */
  function Identifier(input: string): (r: IResult<string>)
    ensures r.Ok? <==> input != [] && IsIdentStart(input[0])
    ensures r.Ok? ==> 0 < |r.value| <= |input| - |r.rest| && r.value == input[..|r.value|]
                      && r.rest == input[|input| - |r.rest|..]
    ensures r.Ok? ==> IsName(r.value)
    ensures r.Err? ==> r == Fail(input)
  {
    if input != [] && IsIdentStart(input[0]) then
      var n := Span(input, IsIdentChar);
      SpanMaximal(input, IsIdentChar);
      var w := MaybeConsumeWhitespaces(input[n..]);
      Ok(w.rest, input[..n])
    else Fail(input)
  }

  /** A character literal `'c'`. */
  function CharConstant(input: string): (r: IResult<char>)
    ensures r.Ok? <==> |input| >= 3 && input[0] == '\'' && input[2] == '\''
    ensures r.Ok? ==> r == Ok(input[3..], input[1])
    ensures r.Err? ==> r == Fail(input)
  {
    if |input| >= 3 && input[0] == '\'' && input[2] == '\'' then Ok(input[3..], input[1])
    else Fail(input)
  }

  /** A string literal `"..."` without escapes: everything up to the next
      double quote. */
  function StringConstant(input: string): (r: IResult<string>)
    ensures r.Ok? <==> input != [] && input[0] == '"' && '"' in input[1..]
    ensures r.Ok? ==> |r.value| + 2 <= |input| && r.value == input[1..|r.value| + 1]
                      && input[|r.value| + 1] == '"' && r.rest == input[|r.value| + 2..]
    ensures r.Ok? ==> forall i :: 0 <= i < |r.value| ==> r.value[i] != '"'
    ensures r.Err? ==> r == Fail(input)
  {
    if input != [] && input[0] == '"' then
      var n := Span(input[1..], IsNotQuote);
      SpanMaximal(input[1..], IsNotQuote);
      if 1 + n < |input| then
        Ok(input[n + 2..], input[1..n + 1])
      else
        assert forall i :: 0 <= i < |input[1..]| ==> input[1..][i] != '"';
        Fail(input)
    else Fail(input)
  }

  /** digits, `.`, digits: the lexeme of a float literal. */
  ghost predicate IsFloatLexeme(s: string) {
    exists k :: 0 < k < |s| - 1 && s[k] == '.' && AllDigits(s[..k]) && AllDigits(s[k + 1..])
  }

  /** A float literal `digits.digits`; its value is kept as the lexeme. */
  function FloatConstant(input: string): (r: IResult<string>)
    ensures r.Ok? ==> |r.value| <= |input| && r.value == input[..|r.value|] && r.rest == input[|r.value|..]
    ensures r.Ok? ==> IsFloatLexeme(r.value)
    ensures r.Ok? ==> r.rest == [] || !IsDigit(r.rest[0])
    ensures r.Err? ==> r == Fail(input)
  {
    var n1 := Span(input, IsDigit);
    if 0 < n1 < |input| && input[n1] == '.' then
      var n2 := Span(input[n1 + 1..], IsDigit);
      if n2 > 0 then
        var n := n1 + 1 + n2;
        SpanMaximal(input, IsDigit);
        SpanMaximal(input[n1 + 1..], IsDigit);
        assert input[..n][..n1] == input[..n1];
        assert input[..n][n1 + 1..] == input[n1 + 1..][..n2];
        Ok(input[n..], input[..n])
      else Fail(input)
    else Fail(input)
  }

  /** The value of a non-empty run of decimal digits. */
  function DigitsValue(d: string): nat
    requires AllDigits(d)
    decreases |d|
  {
    if d == [] then 0 else DigitsValue(d[..|d| - 1]) * 10 + (d[|d| - 1] as int - '0' as int)
  }

  /** An integer literal: a non-empty run of decimal digits. */
  function IntConstant(input: string): (r: IResult<nat>)
    ensures r.Ok? <==> input != [] && IsDigit(input[0])
    ensures r.Ok? ==> |r.rest| < |input| && r.rest == input[|input| - |r.rest|..]
    ensures r.Ok? ==> AllDigits(input[..|input| - |r.rest|])
                      && r.value == DigitsValue(input[..|input| - |r.rest|])
    ensures r.Ok? ==> r.rest == [] || !IsDigit(r.rest[0])
    ensures r.Err? ==> r == Fail(input)
  {
    var n := Span(input, IsDigit);
    SpanMaximal(input, IsDigit);
    if n > 0 then Ok(input[n..], DigitsValue(input[..n])) else Fail(input)
  }

  /** The decimal rendering of a natural number, as Rust's `{}` prints it. */
  function NatToString(n: nat): (s: string)
    ensures s != [] && AllDigits(s)
  {
    if n < 10 then [('0' as int + n) as char]
    else NatToString(n / 10) + [('0' as int + n % 10) as char]
  }

  /** Reading back the decimal rendering gives the number. */
  lemma {:induction false} NatToStringRoundTrip(n: nat)
    ensures DigitsValue(NatToString(n)) == n
  {
    var s := NatToString(n);
    if n >= 10 {
      NatToStringRoundTrip(n / 10);
      assert s[..|s| - 1] == NatToString(n / 10);
    }
  }

  /** The decimal rendering is injective. */
  lemma NatToStringInjective(m: nat, n: nat)
    requires NatToString(m) == NatToString(n)
    ensures m == n
  {
    NatToStringRoundTrip(m);
    NatToStringRoundTrip(n);
  }

  /** `int_constant` reads back a rendered number that is not followed by a digit. */
  lemma IntConstantOfNatToString(n: nat, rest: string)
    requires rest == [] || !IsDigit(rest[0])
    ensures IntConstant(NatToString(n) + rest) == Ok(rest, n)
  {
    var s := NatToString(n);
    SpanOfConcat(s, rest, IsDigit);
    NatToStringRoundTrip(n);
    assert (s + rest)[..|s|] == s;
    assert (s + rest)[|s|..] == rest;
  }

  /** Every character of `s` is whitespace. */
  ghost predicate AllWhitespace(s: string) {
    forall i :: 0 <= i < |s| ==> IsWhitespace(s[i])
  }

  /** `s` does not start with whitespace. */
  ghost predicate NoLeadingWhitespace(s: string) {
    s == [] || !IsWhitespace(s[0])
  }

  /** A well-formed identifier. */
  ghost predicate IsName(s: string) {
    s != [] && IsIdentStart(s[0]) && forall i :: 0 <= i < |s| ==> IsIdentChar(s[i])
  }

  /** `tag(t)` on text that starts with `t` consumes exactly `t`. */
  lemma TagOf(t: string, rest: string)
    ensures Tag(t, t + rest) == Ok(rest, t)
  {
    assert StartsWith(t + rest, t) by {
      assert (t + rest)[..|t|] == t;
    }
    assert (t + rest)[|t|..] == rest;
  }

  /** A one-character tag fails on text that starts with another character. */
  lemma TagMismatch(c: char, input: string)
    requires input == [] || input[0] != c
    ensures Tag([c], input) == Fail(input)
  {
    if |input| >= 1 {
      assert input[..1] == [input[0]];
    }
  }

  /** A tag fails on text whose first character is not the tag's. */
  lemma TagMismatchHead(t: string, input: string)
    requires t != [] && (input == [] || input[0] != t[0])
    ensures Tag(t, input) == Fail(input)
  {
    if |t| <= |input| {
      assert input[..|t|][0] == input[0];
    }
  }

  /** Skipping whitespace consumes exactly the leading whitespace run. */
  lemma {:induction false} MaybeConsumeWhitespacesOf(ws: string, rest: string)
    requires AllWhitespace(ws) && NoLeadingWhitespace(rest)
    ensures MaybeConsumeWhitespaces(ws + rest) == Ok(rest, ws)
    decreases |ws|
  {
    if ws != [] {
      assert (ws + rest)[1..] == ws[1..] + rest;
      MaybeConsumeWhitespacesOf(ws[1..], rest);
      assert [ws[0]] + ws[1..] == ws;
    } else {
      assert ws + rest == rest;
    }
  }

  /** Skipping whitespace where there is none consumes nothing. */
  lemma MaybeConsumeWhitespacesNone(rest: string)
    requires NoLeadingWhitespace(rest)
    ensures MaybeConsumeWhitespaces(rest) == Ok(rest, "")
  {
  }

  /** An identifier, then whitespace, then text that continues neither. */
  lemma IdentifierOf(name: string, ws: string, rest: string)
    requires IsName(name) && AllWhitespace(ws) && NoLeadingWhitespace(rest)
    requires ws == [] ==> rest == [] || !IsIdentChar(rest[0])
    ensures Identifier(name + ws + rest) == Ok(rest, name)
  {
    var input := name + ws + rest;
    assert input == name + (ws + rest);
    assert ws + rest == [] || !IsIdentChar((ws + rest)[0]);
    SpanOfConcat(name, ws + rest, IsIdentChar);
    assert input[|name|..] == ws + rest;
    MaybeConsumeWhitespacesOf(ws, rest);
    assert input[..|name|] == name;
  }

  /** A rendered character literal. */
  lemma CharConstantOf(c: char, rest: string)
    ensures CharConstant("'" + [c] + "'" + rest) == Ok(rest, c)
  {
    var input := "'" + [c] + "'" + rest;
    assert input[3..] == rest;
  }

  /** A rendered string literal without quotes inside. */
  lemma StringConstantOf(s: string, rest: string)
    requires forall i :: 0 <= i < |s| ==> s[i] != '"'
    ensures StringConstant("\"" + s + "\"" + rest) == Ok(rest, s)
  {
    var input := "\"" + s + "\"" + rest;
    assert input[1..] == s + ("\"" + rest);
    SpanOfConcat(s, "\"" + rest, IsNotQuote);
    assert input[|s| + 1] == '"';
    assert '"' in input[1..] by {
      assert input[1..][|s|] == '"';
    }
    assert input[|s| + 2..] == rest;
    assert input[1..|s| + 1] == s;
  }

  /** A float lexeme not followed by a digit is read back whole. */
  lemma FloatConstantOf(lexeme: string, rest: string)
    requires IsFloatLexeme(lexeme)
    requires rest == [] || !IsDigit(rest[0])
    ensures FloatConstant(lexeme + rest) == Ok(rest, lexeme)
  {
    var k :| 0 < k < |lexeme| - 1 && lexeme[k] == '.' && AllDigits(lexeme[..k]) && AllDigits(lexeme[k + 1..]);
    var input := lexeme + rest;
    FloatSpans(lexeme, rest, k);
    var n2 := Span(input[k + 1..], IsDigit);
    assert k + 1 + n2 == |lexeme|;
    assert input[..|lexeme|] == lexeme;
    assert input[|lexeme|..] == rest;
  }

  /** The two digit runs of a float lexeme followed by a non-digit. */
  lemma FloatSpans(lexeme: string, rest: string, k: int)
    requires 0 < k < |lexeme| - 1 && lexeme[k] == '.' && AllDigits(lexeme[..k]) && AllDigits(lexeme[k + 1..])
    requires rest == [] || !IsDigit(rest[0])
    ensures Span(lexeme + rest, IsDigit) == k && (lexeme + rest)[k] == '.'
    ensures Span((lexeme + rest)[k + 1..], IsDigit) == |lexeme| - k - 1
  {
    FloatSplit(lexeme, rest, k);
    SpanOfConcat(lexeme[..k], [lexeme[k]] + (lexeme[k + 1..] + rest), IsDigit);
    SpanOfConcat(lexeme[k + 1..], rest, IsDigit);
  }

  lemma FloatSplit(lexeme: string, rest: string, k: int)
    requires 0 <= k < |lexeme|
    ensures lexeme + rest == lexeme[..k] + ([lexeme[k]] + (lexeme[k + 1..] + rest))
    ensures (lexeme + rest)[k + 1..] == lexeme[k + 1..] + rest
  {
    assert lexeme == lexeme[..k] + [lexeme[k]] + lexeme[k + 1..];
  }
}
