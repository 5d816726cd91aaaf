/**
 * Properties of `constant`: every constant is paired with its literal syntax,
 * and the round trip `constant(literal(c) + rest) == Ok(rest, c)` is proved,
 * together with the failure cases and the examples of the source's tests.
 */
module ConstantProps {
  import opened Wrappers
  import opened Nom
  import Ast
  import Tokens
  import C = Constructs
  import opened SeqFacts

  /** The literal syntax of a constant. */
  function Literal(c: Ast.Constant): string {
    match c
    case CharConst(ch) => "'" + [ch] + "'"
    case StrConst(s) => "\"" + s + "\""
    case IntConst(i) => Tokens.NatToString(i)
    case FloatConst(lexeme) => lexeme
  }

  /** Constants that have a literal syntax: a string without a double quote
      in it, a float kept as a `digits.digits` lexeme. */
  ghost predicate HasLiteral(c: Ast.Constant) {
    match c
    case StrConst(s) => forall i :: 0 <= i < |s| ==> s[i] != '"'
    case FloatConst(lexeme) => Tokens.IsFloatLexeme(lexeme)
    case _ => true
  }

  /** What may follow a literal without being read as part of it or as a
      second literal: not a digit, a `.` or a double quote. */
  ghost predicate EndsLiteral(rest: string) {
    rest == [] || !(Tokens.IsDigit(rest[0]) || rest[0] == '.' || rest[0] == '"')
  }

  /** `constant` reads back the literal of every constant that has one, and
      leaves exactly the text after it. */
  lemma ConstantRoundTrip(c: Ast.Constant, rest: string)
    requires HasLiteral(c) && EndsLiteral(rest)
    ensures C.Constant(Literal(c) + rest) == Ok(rest, c)
  {
    match c
    case CharConst(ch) => CharRoundTrip(ch, rest);
    case StrConst(s) => StrRoundTrip(s, rest);
    case IntConst(i) => IntRoundTrip(i, rest);
    case FloatConst(lexeme) => FloatRoundTrip(lexeme, rest);
  }

  /** The round trip of `constant` for each kind of literal. */
  lemma CharRoundTrip(ch: char, rest: string)
    requires EndsLiteral(rest)
    ensures C.Constant(Literal(Ast.CharConst(ch)) + rest) == Ok(rest, Ast.CharConst(ch))
  {
    var input := Literal(Ast.CharConst(ch)) + rest;
    Tokens.CharConstantOf(ch, rest);
    assert Opt(Tokens.CharConstant(input), input) == Ok(rest, Some(ch));
    assert Opt(Tokens.StringConstant(rest), rest) == Ok(rest, None);
    assert Opt(Tokens.FloatConstant(rest), rest) == Ok(rest, None);
    assert Opt(Tokens.IntConstant(rest), rest) == Ok(rest, None);
  }

  lemma StrRoundTrip(s: string, rest: string)
    requires HasLiteral(Ast.StrConst(s)) && EndsLiteral(rest)
    ensures C.Constant(Literal(Ast.StrConst(s)) + rest) == Ok(rest, Ast.StrConst(s))
  {
    var input := Literal(Ast.StrConst(s)) + rest;
    Tokens.StringConstantOf(s, rest);
    assert Opt(Tokens.CharConstant(input), input) == Ok(input, None);
    assert Opt(Tokens.StringConstant(input), input) == Ok(rest, Some(s));
    assert Opt(Tokens.FloatConstant(rest), rest) == Ok(rest, None);
    assert Opt(Tokens.IntConstant(rest), rest) == Ok(rest, None);
  }

  lemma IntRoundTrip(i: nat, rest: string)
    requires EndsLiteral(rest)
    ensures C.Constant(Literal(Ast.IntConst(i)) + rest) == Ok(rest, Ast.IntConst(i))
  {
    var d := Tokens.NatToString(i);
    var input := d + rest;
    Tokens.IntConstantOfNatToString(i, rest);
    IntIsNoFloat(i, rest);
    assert Opt(Tokens.CharConstant(input), input) == Ok(input, None);
    assert Opt(Tokens.StringConstant(input), input) == Ok(input, None);
    assert Opt(Tokens.FloatConstant(input), input) == Ok(input, None);
    assert Opt(Tokens.IntConstant(input), input) == Ok(rest, Some(i));
  }

  lemma FloatRoundTrip(lexeme: string, rest: string)
    requires HasLiteral(Ast.FloatConst(lexeme)) && EndsLiteral(rest)
    ensures C.Constant(Literal(Ast.FloatConst(lexeme)) + rest) == Ok(rest, Ast.FloatConst(lexeme))
  {
    var input := lexeme + rest;
    Tokens.FloatConstantOf(lexeme, rest);
    assert Opt(Tokens.CharConstant(input), input) == Ok(input, None);
    assert Opt(Tokens.StringConstant(input), input) == Ok(input, None);
    assert Opt(Tokens.FloatConstant(input), input) == Ok(rest, Some(lexeme));
    assert Opt(Tokens.IntConstant(rest), rest) == Ok(rest, None);
  }

  /** A character literal directly followed by an integer literal matches two
      of the four recognizers, which `constant` rejects as a fatal failure. */
  lemma ConstantAmbiguous(ch: char, i: nat, rest: string)
    requires EndsLiteral(rest)
    ensures C.Constant(Literal(Ast.CharConst(ch)) + Literal(Ast.IntConst(i)) + rest)
            == Err(Failure(C.NotAValidConstant))
  {
    var d := Tokens.NatToString(i);
    Assoc3(Literal(Ast.CharConst(ch)), d, rest);
    Tokens.CharConstantOf(ch, d + rest);
    Tokens.IntConstantOfNatToString(i, rest);
    IntIsNoFloat(i, rest);
    AmbiguousAt(Literal(Ast.CharConst(ch)) + (d + rest), d + rest, ch, rest, i);
  }

  /** `constant` on text where both the character and the integer
      recognizer match, one after the other. */
  lemma AmbiguousAt(input: string, t: string, ch: char, rest: string, i: nat)
    requires Tokens.CharConstant(input) == Ok(t, ch)
    requires Tokens.IntConstant(t) == Ok(rest, i) && Tokens.FloatConstant(t).Err?
    ensures C.Constant(input) == Err(Failure(C.NotAValidConstant))
  {
    assert Opt(Tokens.CharConstant(input), input) == Ok(t, Some(ch));
    assert Opt(Tokens.StringConstant(t), t) == Ok(t, None);
    assert Opt(Tokens.FloatConstant(t), t) == Ok(t, None);
    assert Opt(Tokens.IntConstant(t), t) == Ok(rest, Some(i));
  }

  /** The digits of an integer, followed by no digit and no `.`, are no float. */
  lemma IntIsNoFloat(i: nat, rest: string)
    requires EndsLiteral(rest)
    ensures Tokens.FloatConstant(Tokens.NatToString(i) + rest).Err?
  {
    var d := Tokens.NatToString(i);
    Tokens.IntConstantOfNatToString(i, rest);
    Tokens.SpanOfConcat(d, rest, Tokens.IsDigit);
    assert (d + rest)[|d|..] == rest;
  }

  /** Text that starts no literal (an identifier, an operator, nothing) makes
      `constant` fail fatally, never recoverably: an `alt` never gets past it. */
  lemma ConstantNoLiteral(input: string)
    requires input == [] || !(input[0] == '\'' || input[0] == '"' || Tokens.IsDigit(input[0]))
    ensures C.Constant(input) == Err(Failure(C.NotAValidConstant))
  {
    assert Opt(Tokens.CharConstant(input), input) == Ok(input, None);
    assert Opt(Tokens.StringConstant(input), input) == Ok(input, None);
    assert Opt(Tokens.FloatConstant(input), input) == Ok(input, None);
    assert Opt(Tokens.IntConstant(input), input) == Ok(input, None);
  }

  /** The examples of `constant` in the source's tests: `12` is an integer,
      `12.2` a float, `'a'` a character and `"a"` a string. */
  lemma ConstantExampleInt()
    ensures C.Constant("12") == Ok("", Ast.IntConst(12))
  {
    TwelveText();
    ConstantIn("12", Ast.IntConst(12), "");
  }

  lemma TwelveText()
    ensures Literal(Ast.IntConst(12)) + "" == "12"
  {
    assert Tokens.NatToString(12) == "12";
  }

  /** `ConstantRoundTrip` for an input given as a variable. */
  lemma ConstantIn(input: string, c: Ast.Constant, rest: string)
    requires input == Literal(c) + rest
    requires HasLiteral(c) && EndsLiteral(rest)
    ensures C.Constant(input) == Ok(rest, c)
  {
    ConstantRoundTrip(c, rest);
  }

  lemma ConstantExampleFloat()
    ensures C.Constant("12.2") == Ok("", Ast.FloatConst("12.2"))
  {
    assert Tokens.IsFloatLexeme("12.2") by {
      assert "12.2"[..2] == "12" && "12.2"[3..] == "2";
    }
    FloatRoundTrip("12.2", "");
    assert "12.2" + "" == "12.2";
  }

  lemma ConstantExampleChar()
    ensures C.Constant("'a'") == Ok("", Ast.CharConst('a'))
  {
    CharRoundTrip('a', "");
    assert Literal(Ast.CharConst('a')) + "" == "'a'";
  }

  lemma ConstantExampleStr()
    ensures C.Constant("\"a\"") == Ok("", Ast.StrConst("a"))
  {
    StrRoundTrip("a", "");
    assert Literal(Ast.StrConst("a")) + "" == "\"a\"";
  }

  /** A literal starts with a quote, an apostrophe or a digit. */
  lemma LiteralStart(c: Ast.Constant)
    requires HasLiteral(c)
    ensures Literal(c) != []
    ensures Literal(c)[0] == '\'' || Literal(c)[0] == '"' || Tokens.IsDigit(Literal(c)[0])
  {
    match c
    case FloatConst(lexeme) =>
      var k :| 0 < k < |lexeme| - 1 && lexeme[k] == '.' && Tokens.AllDigits(lexeme[..k]) && Tokens.AllDigits(lexeme[k + 1..]);
      assert lexeme[..k][0] == lexeme[0];
    case _ =>
  }
}
