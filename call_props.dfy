/**
 * Properties of the function-call constructs: `arg`, `arg_and_comma`,
 * `many0(arg_and_comma)`, `function_call_no_args`, `function_call_args`
 * and `function_call`. Each is paired with the text it reads back, and the
 * failure cases and the examples of the source's tests are proved on top.
 */
module CallProps {
  import opened Wrappers
  import opened Nom
  import Ast
  import Tokens
  import C = Constructs
  import opened ConstantProps
  import opened SeqFacts

  /** `arg` skips the whitespace `lead` before and `trail` after the text
      `y` that `constant` reads. */
  lemma ArgOf(lead: string, y: string, c: Ast.Constant, trail: string, rest: string)
    requires Tokens.AllWhitespace(lead) && Tokens.NoLeadingWhitespace(y)
    requires C.Constant(y) == Ok(trail + rest, c)
    requires Tokens.AllWhitespace(trail) && Tokens.NoLeadingWhitespace(rest)
    ensures C.Arg(lead + y) == Ok(rest, c)
  {
    Tokens.MaybeConsumeWhitespacesOf(lead, y);
    Tokens.MaybeConsumeWhitespacesOf(trail, rest);
  }

  /** Whitespace, or the text after a literal, ends a literal. */
  lemma TrailEndsLiteral(trail: string, rest: string)
    requires Tokens.AllWhitespace(trail) && EndsLiteral(rest)
    ensures EndsLiteral(trail + rest)
  {
    if trail != [] {
      assert (trail + rest)[0] == trail[0];
    }
  }

  /** `arg` reads a literal with whitespace around it and leaves the text
      after the whitespace. */
  lemma ArgIn(input: string, lead: string, c: Ast.Constant, trail: string, rest: string)
    requires input == lead + Literal(c) + trail + rest
    requires Tokens.AllWhitespace(lead) && HasLiteral(c) && Tokens.AllWhitespace(trail)
    requires EndsLiteral(rest) && Tokens.NoLeadingWhitespace(rest)
    ensures C.Arg(input) == Ok(rest, c)
  {
    Assoc4(lead, Literal(c), trail, rest);
    var y := Literal(c) + (trail + rest);
    LiteralThenTrail(c, trail, rest);
    ArgOf(lead, y, c, trail, rest);
  }

  /** A literal followed by whitespace is read back as the constant. */
  lemma LiteralThenTrail(c: Ast.Constant, trail: string, rest: string)
    requires HasLiteral(c) && Tokens.AllWhitespace(trail) && EndsLiteral(rest)
    ensures Tokens.NoLeadingWhitespace(Literal(c) + (trail + rest))
    ensures C.Constant(Literal(c) + (trail + rest)) == Ok(trail + rest, c)
  {
    LiteralNoLeadingWhitespace(c, trail + rest);
    TrailEndsLiteral(trail, rest);
    ConstantRoundTrip(c, trail + rest);
  }

  /** A literal does not start with whitespace, whatever follows it. */
  lemma LiteralNoLeadingWhitespace(c: Ast.Constant, t: string)
    requires HasLiteral(c)
    ensures Tokens.NoLeadingWhitespace(Literal(c) + t)
  {
    LiteralStart(c);
    assert (Literal(c) + t)[0] == Literal(c)[0];
  }

  /** `arg_and_comma` in terms of the result of `arg`. */
  lemma ArgAndCommaStep(input: string, c: Ast.Constant, rest: string)
    requires C.Arg(input) == Ok("," + rest, c)
    ensures C.ArgAndComma(input) == Ok(rest, c)
  {
    Tokens.TagOf(",", rest);
  }

  /** `arg_and_comma` fails recoverably when no comma follows the argument. */
  lemma ArgAndCommaFails(input: string, c: Ast.Constant, rest: string)
    requires C.Arg(input) == Ok(rest, c) && (rest == [] || rest[0] != ',')
    ensures C.ArgAndComma(input).IsRecoverable()
  {
  }

  /** `arg_and_comma` reads an argument and the comma after it. */
  lemma ArgAndCommaIn(input: string, lead: string, c: Ast.Constant, trail: string, rest: string)
    requires input == lead + Literal(c) + trail + "," + rest
    requires Tokens.AllWhitespace(lead) && HasLiteral(c) && Tokens.AllWhitespace(trail)
    ensures C.ArgAndComma(input) == Ok(rest, c)
  {
    AssocLast(lead, Literal(c), trail, ",", rest);
    ArgIn(input, lead, c, trail, "," + rest);
    ArgAndCommaStep(input, c, rest);
  }

  /** On the last argument, which no comma follows, `arg` succeeds and
      `arg_and_comma` fails recoverably, which is what ends `many0`. */
  lemma ArgAndCommaStopsIn(input: string, lead: string, c: Ast.Constant, trail: string, rest: string)
    requires input == lead + Literal(c) + trail + rest
    requires Tokens.AllWhitespace(lead) && HasLiteral(c) && Tokens.AllWhitespace(trail)
    requires EndsLiteral(rest) && Tokens.NoLeadingWhitespace(rest) && (rest == [] || rest[0] != ',')
    ensures C.Arg(input) == Ok(rest, c)
    ensures C.ArgAndComma(input).IsRecoverable()
  {
    ArgIn(input, lead, c, trail, rest);
    ArgAndCommaFails(input, c, rest);
  }

  /** A call argument as written: a constant with the whitespace before and
      after it. */
  datatype Spaced = Spaced(before: string, c: Ast.Constant, after: string)

  /** The text of one argument. */
  function ArgText(a: Spaced): string {
    a.before + Literal(a.c) + a.after
  }

  /** Whitespace layout and a literal syntax for the constant. */
  ghost predicate WellSpaced(a: Spaced) {
    Tokens.AllWhitespace(a.before) && HasLiteral(a.c) && Tokens.AllWhitespace(a.after)
  }

  ghost predicate AllWellSpaced(args: seq<Spaced>) {
    forall i :: 0 <= i < |args| ==> WellSpaced(args[i])
  }

  /** The comma-terminated arguments, each followed by its comma. */
  function ArgsText(args: seq<Spaced>): string {
    if args == [] then "" else ArgText(args[0]) + "," + ArgsText(args[1..])
  }

  /** The constants of the arguments, in order. */
  function Values(args: seq<Spaced>): (cs: seq<Ast.Constant>)
    ensures |cs| == |args| && forall i :: 0 <= i < |args| ==> cs[i] == args[i].c
  {
    if args == [] then [] else [args[0].c] + Values(args[1..])
  }

  lemma AllWellSpacedTail(args: seq<Spaced>)
    requires AllWellSpaced(args) && args != []
    ensures AllWellSpaced(args[1..])
  {
    forall i | 0 <= i < |args[1..]| ensures WellSpaced(args[1..][i]) {
      assert args[1..][i] == args[i + 1];
    }
  }

  /** `arg_and_comma` reads the first of the comma-terminated arguments. */
  lemma ArgsHead(args: seq<Spaced>, tail: string)
    requires AllWellSpaced(args) && args != []
    ensures C.ArgAndComma(ArgsText(args) + tail) == Ok(ArgsText(args[1..]) + tail, args[0].c)
  {
    var a := args[0];
    assert WellSpaced(a);
    AssocLast6(a.before, Literal(a.c), a.after, ",", ArgsText(args[1..]), tail);
    ArgAndCommaIn(ArgsText(args) + tail, a.before, a.c, a.after, ArgsText(args[1..]) + tail);
  }

  /** One round of `many0(arg_and_comma)`. */
  lemma Many0ArgsStep(input: string, more: string, c: Ast.Constant, tail: string, cs: seq<Ast.Constant>)
    requires C.ArgAndComma(input) == Ok(more, c)
    requires AlwaysConsumes(C.ArgAndComma) && Many0Of(C.ArgAndComma, more) == Ok(tail, cs)
    ensures Many0Of(C.ArgAndComma, input) == Ok(tail, [c] + cs)
  {
    Many0Cons(C.ArgAndComma, input, more, c, tail, cs);
  }

  /** `many0(arg_and_comma)` collects the comma-terminated arguments in order
      and stops in front of `tail`, on which `arg_and_comma` fails. */
  lemma {:induction false} Many0ArgsOf(args: seq<Spaced>, tail: string)
    requires AllWellSpaced(args) && C.ArgAndComma(tail).IsRecoverable()
    ensures AlwaysConsumes(C.ArgAndComma)
    ensures Many0Of(C.ArgAndComma, ArgsText(args) + tail) == Ok(tail, Values(args))
    decreases |args|
  {
    assert AlwaysConsumes(C.ArgAndComma);
    if args == [] {
      assert ArgsText(args) + tail == tail;
      Many0Nil(C.ArgAndComma, tail);
    } else {
      ArgsHead(args, tail);
      AllWellSpacedTail(args);
      Many0ArgsOf(args[1..], tail);
      Many0ArgsStep(ArgsText(args) + tail, ArgsText(args[1..]) + tail, args[0].c, tail, Values(args[1..]));
    }
  }

  /** An identifier directly followed by a non-identifier character. */
  lemma IdentifierBefore(name: string, rest: string)
    requires Tokens.IsName(name) && rest != [] && !Tokens.IsIdentChar(rest[0])
    requires Tokens.NoLeadingWhitespace(rest)
    ensures Tokens.Identifier(name + rest) == Ok(rest, name)
  {
    Tokens.IdentifierOf(name, "", rest);
    EmptyRight(name, rest);
  }

  /** `()` after a name is a call without arguments. */
  lemma FunctionCallNoArgsOf(name: string, rest: string)
    requires Tokens.IsName(name)
    ensures C.FunctionCall(name + "()" + rest) == Ok(rest, Ast.FunctionCall(name, []))
  {
    Assoc3(name, "()", rest);
    assert "()" + rest == "(" + (")" + rest);
    IdentifierBefore(name, "()" + rest);
    Tokens.TagOf("(", ")" + rest);
    Tokens.TagOf(")", rest);
  }

  /** `function_call_args` from the results of its parts: the name with its
      parenthesis, the comma-terminated arguments and the last argument. */
  lemma FunctionCallArgsAt(input: string, name: string, body: string, cs: seq<Ast.Constant>,
                           tail: string, c: Ast.Constant, rest: string)
    requires Tokens.Identifier(input) == Ok("(" + body, name)
    requires AlwaysConsumes(C.ArgAndComma) && Many0Of(C.ArgAndComma, body) == Ok(tail, cs)
    requires C.Arg(tail) == Ok(rest, c)
    ensures C.FunctionCallArgs(input) == Ok(rest, C.BuildCall(name, cs, c))
  {
    Tokens.TagOf("(", body);
  }

  /** When the parenthesis is not closed at once, `function_call` is
      `function_call_args`. */
  lemma FunctionCallAt(input: string, name: string, body: string, cs: seq<Ast.Constant>,
                       tail: string, c: Ast.Constant, rest: string)
    requires Tokens.Identifier(input) == Ok("(" + body, name) && (body == [] || body[0] != ')')
    requires AlwaysConsumes(C.ArgAndComma) && Many0Of(C.ArgAndComma, body) == Ok(tail, cs)
    requires C.Arg(tail) == Ok(rest, c)
    ensures C.FunctionCall(input) == Ok(rest, C.BuildCall(name, cs, c))
  {
    FunctionCallArgsAt(input, name, body, cs, tail, c, rest);
    NoArgsFails(input, name, body);
  }

  /** `function_call_no_args` fails recoverably when the parenthesis after
      the name is not closed at once. */
  lemma NoArgsFails(input: string, name: string, body: string)
    requires Tokens.Identifier(input) == Ok("(" + body, name) && (body == [] || body[0] != ')')
    ensures C.FunctionCallNoArgs(input).IsRecoverable()
  {
    Tokens.TagOf("(", body);
    NotClosed(body);
  }

  lemma NotClosed(body: string)
    requires body == [] || body[0] != ')'
    ensures Tokens.RightParenthesis(body) == Tokens.Fail(body)
  {
    Tokens.TagMismatch(')', body);
  }

  /** Text made of whitespace and then a literal does not start with `)`. */
  lemma NoCloseFirst(lead: string, x: string, more: string)
    requires Tokens.AllWhitespace(lead) && x != [] && x[0] != ')'
    ensures lead + x + more != [] && (lead + x + more)[0] != ')'
  {
    if lead != [] {
      assert (lead + x + more)[0] == lead[0];
    } else {
      assert (lead + x + more)[0] == x[0];
    }
  }

  /** The arguments of a call are read back in order; the closing
      parenthesis is left in the input by `function_call_args`. */
  lemma FunctionCallOf(name: string, args: seq<Spaced>, last: Spaced, rest: string)
    requires Tokens.IsName(name) && AllWellSpaced(args) && WellSpaced(last)
    ensures C.FunctionCall(name + "(" + (ArgsText(args) + (ArgText(last) + ")" + rest)))
            == Ok(")" + rest, C.BuildCall(name, Values(args), last.c))
  {
    var lastText := ArgText(last) + (")" + rest);
    Assoc3(ArgText(last), ")", rest);
    var body := ArgsText(args) + lastText;
    Assoc3(name, "(", body);
    IdentifierBefore(name, "(" + body);
    ArgAndCommaStopsIn(lastText, last.before, last.c, last.after, ")" + rest);
    Many0ArgsOf(args, lastText);
    BodyStart(args, last, rest);
    FunctionCallAt(name + "(" + body, name, body, Values(args), lastText, last.c, ")" + rest);
  }

  /** The arguments start with whitespace or a literal, never with `)`. */
  lemma BodyStart(args: seq<Spaced>, last: Spaced, rest: string)
    requires AllWellSpaced(args) && WellSpaced(last)
    ensures var body := ArgsText(args) + (ArgText(last) + (")" + rest));
            body != [] && body[0] != ')'
  {
    var lastText := ArgText(last) + (")" + rest);
    var a := if args == [] then last else args[0];
    var more := if args == [] then last.after + (")" + rest) else a.after + "," + ArgsText(args[1..]) + lastText;
    assert WellSpaced(a);
    LiteralStart(a.c);
    if args == [] {
      Assoc3(a.before + Literal(a.c), a.after, ")" + rest);
    } else {
      AssocMid(a.before, Literal(a.c), a.after, ",", ArgsText(args[1..]));
      Assoc3(a.before + Literal(a.c), a.after + "," + ArgsText(args[1..]), lastText);
    }
    NoCloseFirst(a.before, Literal(a.c), more);
  }

  /** A name not followed by `(` is no call: both alternatives fail
      recoverably on the parenthesis. */
  lemma FunctionCallNoParen(input: string, name: string, rest: string)
    requires Tokens.Identifier(input) == Ok(rest, name) && (rest == [] || rest[0] != '(')
    ensures C.FunctionCall(input) == Tokens.Fail(rest)
  {
    Tokens.TagMismatch('(', rest);
  }

  /** A parenthesis followed by neither `)` nor a literal makes
      `function_call` fail fatally: `many0` cannot step over the argument. */
  lemma FunctionCallBadArg(input: string, name: string, body: string)
    requires Tokens.Identifier(input) == Ok("(" + body, name) && Tokens.NoLeadingWhitespace(body)
    requires body == [] || !(body[0] == ')' || body[0] == '\'' || body[0] == '"' || Tokens.IsDigit(body[0]))
    ensures C.FunctionCall(input) == Err(Failure(C.NotAValidConstant))
  {
    NoArgsFails(input, name, body);
    Tokens.TagOf("(", body);
    Tokens.MaybeConsumeWhitespacesNone(body);
    ConstantNoLiteral(body);
    assert C.ArgAndComma(body) == Err(Failure(C.NotAValidConstant));
    assert AlwaysConsumes(C.ArgAndComma);
  }

  /** The examples of `function_call` in the source's tests. */
  lemma FunctionCallExampleNoArgs()
    ensures C.FunctionCall("fn()") == Ok("", Ast.FunctionCall("fn", []))
  {
    TextNoArgs();
    FunctionCallNoArgsOf("fn", "");
  }

  lemma TextNoArgs()
    ensures "fn" + "()" + "" == "fn()" && Tokens.IsName("fn")
  {
  }

  lemma FunctionCallExampleOne()
    ensures C.FunctionCall("fn(2)") == Ok(")", Ast.FunctionCall("fn", [Ast.Const(Ast.IntConst(2))]))
  {
    var last := Spaced("", Ast.IntConst(2), "");
    TextOne();
    FunctionCallOf("fn", [], last, "");
    BuildCallOne("fn", last.c);
  }

  lemma TextOne()
    ensures "fn(2)" == "fn" + "(" + (ArgsText([]) + (ArgText(Spaced("", Ast.IntConst(2), "")) + ")" + ""))
    ensures ")" + "" == ")" && Values([]) == [] && Tokens.IsName("fn")
    ensures AllWellSpaced([]) && WellSpaced(Spaced("", Ast.IntConst(2), ""))
  {
    assert Literal(Ast.IntConst(2)) == "2";
  }

  lemma BuildCallOne(name: string, c: Ast.Constant)
    ensures C.BuildCall(name, [], c) == Ast.FunctionCall(name, [Ast.Const(c)])
  {
    assert C.Boxed([]) == [];
  }

  lemma FunctionCallExampleThree()
    ensures var r := C.FunctionCall("fn(1, 2, 3)");
            r.Ok? && r.value.name == "fn" && |r.value.args| == 3
  {
    var args := [Spaced("", Ast.IntConst(1), ""), Spaced(" ", Ast.IntConst(2), "")];
    var last := Spaced(" ", Ast.IntConst(3), "");
    TextThree(args, last);
    FunctionCallOf("fn", args, last, "");
  }

  lemma TextThree(args: seq<Spaced>, last: Spaced)
    requires args == [Spaced("", Ast.IntConst(1), ""), Spaced(" ", Ast.IntConst(2), "")]
    requires last == Spaced(" ", Ast.IntConst(3), "")
    ensures "fn(1, 2, 3)" == "fn" + "(" + (ArgsText(args) + (ArgText(last) + ")" + ""))
    ensures Tokens.IsName("fn") && AllWellSpaced(args) && WellSpaced(last) && |Values(args)| == 2
  {
    assert Literal(Ast.IntConst(1)) == "1" && Literal(Ast.IntConst(2)) == "2" && Literal(Ast.IntConst(3)) == "3";
    assert ArgsText(args[1..][1..]) == "";
  }

  lemma FunctionCallExampleSpaced()
    ensures var r := C.FunctionCall("fn(1   , 2,3)");
            r.Ok? && r.value.name == "fn" && |r.value.args| == 3
  {
    var args := [Spaced("", Ast.IntConst(1), "   "), Spaced(" ", Ast.IntConst(2), "")];
    var last := Spaced("", Ast.IntConst(3), "");
    TextSpaced(args, last);
    FunctionCallOf("fn", args, last, "");
  }

  lemma TextSpaced(args: seq<Spaced>, last: Spaced)
    requires args == [Spaced("", Ast.IntConst(1), "   "), Spaced(" ", Ast.IntConst(2), "")]
    requires last == Spaced("", Ast.IntConst(3), "")
    ensures "fn(1   , 2,3)" == "fn" + "(" + (ArgsText(args) + (ArgText(last) + ")" + ""))
    ensures Tokens.IsName("fn") && AllWellSpaced(args) && WellSpaced(last) && |Values(args)| == 2
  {
    assert Literal(Ast.IntConst(1)) == "1" && Literal(Ast.IntConst(2)) == "2" && Literal(Ast.IntConst(3)) == "3";
    assert ArgsText(args[1..][1..]) == "";
  }

  /** The invalid calls of the source's tests: an unterminated parenthesis,
      wrong parentheses. */
  lemma FunctionCallExampleUnterminated()
    ensures C.FunctionCall("fn(") == Err(Failure(C.NotAValidConstant))
  {
    TextsInvalid();
    IdentifierBefore("fn", "(");
    FunctionCallBadArg("fn(", "fn", "");
  }

  lemma FunctionCallExampleWrongClose()
    ensures C.FunctionCall("fn))").IsRecoverable()
  {
    TextsInvalid();
    IdentifierBefore("fn", "))");
    FunctionCallNoParen("fn))", "fn", "))");
  }

  lemma FunctionCallExampleWrongOpen()
    ensures C.FunctionCall("fn((") == Err(Failure(C.NotAValidConstant))
  {
    TextsInvalid();
    IdentifierBefore("fn", "((");
    FunctionCallBadArg("fn((", "fn", "(");
  }

  lemma TextsInvalid()
    ensures "fn" + "(" == "fn(" && "(" == "(" + ""
    ensures "fn" + "))" == "fn))"
    ensures "fn" + "((" == "fn((" && "((" == "(" + "("
    ensures Tokens.IsName("fn")
  {
  }
}
