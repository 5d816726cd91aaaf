/**
 * Properties of `var_assignment`: an assignment is read back from its text,
 * `mut` is recognised only as a keyword followed by a space, and the
 * semicolon is required. The examples of the source's tests are proved on
 * top.
 */
module AssignProps {
  import opened Wrappers
  import opened Nom
  import Ast
  import Tokens
  import C = Constructs
  import opened ConstantProps
  import opened SeqFacts

  /** Optional whitespace in front of text that does not start with any. */
  lemma OptWhitespaceOf(ws: string, rest: string)
    requires Tokens.AllWhitespace(ws) && Tokens.NoLeadingWhitespace(rest)
    ensures Opt(Tokens.ConsumeWhitespaces(ws + rest), ws + rest).rest == rest
  {
    Tokens.MaybeConsumeWhitespacesOf(ws, rest);
    if ws == [] {
      assert ws + rest == rest;
    } else {
      assert (ws + rest)[0] == ws[0];
    }
  }

  /** The value of an assignment, read up to the text `t` after it. */
  lemma ValueAt(y: string, c: Ast.Constant, t: string)
    requires y == Literal(c) + t && HasLiteral(c) && EndsLiteral(t)
    ensures Tokens.NoLeadingWhitespace(y)
    ensures C.Constant(y) == Ok(t, c)
  {
    LiteralStart(c);
    assert y[0] == Literal(c)[0];
    ConstantIn(y, c, t);
  }

  /** `= ws value` after the identifier. */
  lemma EqualsAt(x: string, ws2: string, y: string)
    requires x == "=" + (ws2 + y) && Tokens.AllWhitespace(ws2) && Tokens.NoLeadingWhitespace(y)
    ensures Opt(Tokens.ConsumeWhitespaces(x), x).rest == x
    ensures Tokens.Equal(x) == Ok(ws2 + y, "=")
    ensures Opt(Tokens.ConsumeWhitespaces(ws2 + y), ws2 + y).rest == y
  {
    Tokens.TagOf("=", ws2 + y);
    OptWhitespaceOf(ws2, y);
  }

  lemma IdentifierAt(input: string, name: string, ws: string, x: string)
    requires input == name + ws + x && Tokens.IsName(name) && Tokens.AllWhitespace(ws)
    requires x != [] && x[0] == '='
    ensures Tokens.Identifier(input) == Ok(x, name)
  {
    Tokens.IdentifierOf(name, ws, x);
  }

  /** The text of an assignment after `mut` and before the semicolon. */
  function BodyText(name: string, ws1: string, ws2: string, c: Ast.Constant): string {
    name + ws1 + "=" + ws2 + Literal(c)
  }

  lemma BodyTextShape(name: string, ws1: string, ws2: string, c: Ast.Constant, t: string)
    ensures BodyText(name, ws1, ws2, c) + t == name + ws1 + ("=" + (ws2 + (Literal(c) + t)))
    ensures BodyText(name, ws1, ws2, c) + t == name + (ws1 + ("=" + (ws2 + (Literal(c) + t))))
  {
  }

  /** The steps of `assignment_body` up to its semicolon, on the text of a
      name, `=` and a literal followed by `t`. */
  lemma BodyParts(input: string, name: string, ws1: string, ws2: string, c: Ast.Constant, t: string)
    returns (x: string, y: string)
    requires input == BodyText(name, ws1, ws2, c) + t
    requires Tokens.IsName(name) && Tokens.AllWhitespace(ws1) && Tokens.AllWhitespace(ws2) && HasLiteral(c)
    requires EndsLiteral(t)
    ensures Tokens.Identifier(input) == Ok(x, name)
    ensures Opt(Tokens.ConsumeWhitespaces(x), x).rest == x && Tokens.Equal(x) == Ok(ws2 + y, "=")
    ensures Opt(Tokens.ConsumeWhitespaces(ws2 + y), ws2 + y).rest == y
    ensures C.Constant(y) == Ok(t, c)
  {
    y := Literal(c) + t;
    x := "=" + (ws2 + y);
    BodyTextShape(name, ws1, ws2, c, t);
    ValueAt(y, c, t);
    IdentifierAt(input, name, ws1, x);
    EqualsAt(x, ws2, y);
  }

  /** `assignment_body` from the results of its parts. */
  lemma AssignmentBodyAt(input: string, mutable: bool, name: string, x: string, ws2: string,
                         y: string, c: Ast.Constant, t: string)
    requires Tokens.Identifier(input) == Ok(x, name)
    requires Opt(Tokens.ConsumeWhitespaces(x), x).rest == x && Tokens.Equal(x) == Ok(ws2 + y, "=")
    requires Opt(Tokens.ConsumeWhitespaces(ws2 + y), ws2 + y).rest == y
    requires C.Constant(y) == Ok(t, c)
    ensures Tokens.Semicolon(t).Ok? ==>
              C.AssignmentBody(input, mutable) == Ok(Tokens.Semicolon(t).rest, Ast.VarAssign(mutable, name, c))
    ensures Tokens.Semicolon(t).Err? ==> C.AssignmentBody(input, mutable) == Tokens.Fail(t)
  {
  }

  /** `<name> ws = ws <literal> ;` is read back by `assignment_body`. */
  lemma AssignmentBodyOf(name: string, ws1: string, ws2: string, c: Ast.Constant, rest: string, mutable: bool)
    requires Tokens.IsName(name) && Tokens.AllWhitespace(ws1) && Tokens.AllWhitespace(ws2) && HasLiteral(c)
    ensures C.AssignmentBody(BodyText(name, ws1, ws2, c) + (";" + rest), mutable)
            == Ok(rest, Ast.VarAssign(mutable, name, c))
  {
    var input := BodyText(name, ws1, ws2, c) + (";" + rest);
    var x, y := BodyParts(input, name, ws1, ws2, c, ";" + rest);
    Tokens.TagOf(";", rest);
    AssignmentBodyAt(input, mutable, name, x, ws2, y, c, ";" + rest);
  }

  /** Without the semicolon after the value, `assignment_body` fails. */
  lemma AssignmentBodyNoSemicolon(name: string, ws1: string, ws2: string, c: Ast.Constant, t: string, mutable: bool)
    requires Tokens.IsName(name) && Tokens.AllWhitespace(ws1) && Tokens.AllWhitespace(ws2) && HasLiteral(c)
    requires EndsLiteral(t) && (t == [] || t[0] != ';')
    ensures C.AssignmentBody(BodyText(name, ws1, ws2, c) + t, mutable) == Tokens.Fail(t)
  {
    var input := BodyText(name, ws1, ws2, c) + t;
    var x, y := BodyParts(input, name, ws1, ws2, c, t);
    Tokens.TagMismatch(';', t);
    AssignmentBodyAt(input, mutable, name, x, ws2, y, c, t);
  }

  /** The text of a statement: the keyword `mut` and a space, and more
      whitespace, when the variable is mutable. */
  function Prefix(mutable: bool, ws0: string): string {
    if mutable then "mut " + ws0 else ""
  }

  /** The text of an assignment. */
  function AssignText(v: Ast.VarAssign, ws0: string, ws1: string, ws2: string): string {
    Prefix(v.mutable, ws0) + BodyText(v.symbol, ws1, ws2, v.value) + ";"
  }

  /** `var_assignment` on the text after its optional `mut`: the keyword is
      recognised exactly when it is written. */
  lemma VarAssignmentOnBody(mutable: bool, name: string, ws0: string, after: string)
    requires Tokens.IsName(name) && Tokens.AllWhitespace(ws0)
    requires after == [] || !Tokens.IsIdentChar(after[0])
    requires mutable || name != "mut"
    ensures C.VarAssignment(Prefix(mutable, ws0) + (name + after)) == C.AssignmentBody(name + after, mutable)
  {
    var body := name + after;
    assert body[0] == name[0];
    var input := Prefix(mutable, ws0) + body;
    if mutable {
      assert input == "mut " + (ws0 + body);
      MutPrefix(input, ws0, body);
      MutStep(input, ws0 + body, body, true);
    } else {
      assert input == body;
      NoMutPrefix(name, after);
      MutStep(input, body, body, false);
    }
  }

  /** An assignment is read back from its text. An immutable variable may
      not be called `mut`, which would read as the keyword. */
  lemma VarAssignmentRoundTrip(v: Ast.VarAssign, ws0: string, ws1: string, ws2: string, rest: string)
    requires Tokens.IsName(v.symbol) && HasLiteral(v.value)
    requires Tokens.AllWhitespace(ws0) && Tokens.AllWhitespace(ws1) && Tokens.AllWhitespace(ws2)
    requires v.mutable || v.symbol != "mut"
    ensures C.VarAssignment(AssignText(v, ws0, ws1, ws2) + rest) == Ok(rest, v)
  {
    var after := AfterName(v.symbol, ws1, ws2, v.value, ";" + rest);
    AssignmentBodyOf(v.symbol, ws1, ws2, v.value, rest, v.mutable);
    VarAssignmentOnBody(v.mutable, v.symbol, ws0, after);
    AssignTextShape(v, ws0, ws1, ws2, rest);
  }

  /** A statement whose value no semicolon follows is rejected. */
  lemma VarAssignmentNeedsSemicolon(mutable: bool, name: string, ws0: string, ws1: string, ws2: string,
                                    c: Ast.Constant, t: string)
    requires Tokens.IsName(name) && HasLiteral(c)
    requires Tokens.AllWhitespace(ws0) && Tokens.AllWhitespace(ws1) && Tokens.AllWhitespace(ws2)
    requires mutable || name != "mut"
    requires EndsLiteral(t) && (t == [] || t[0] != ';')
    ensures C.VarAssignment(Prefix(mutable, ws0) + (BodyText(name, ws1, ws2, c) + t)) == Tokens.Fail(t)
  {
    var after := AfterName(name, ws1, ws2, c, t);
    AssignmentBodyNoSemicolon(name, ws1, ws2, c, t, mutable);
    VarAssignmentOnBody(mutable, name, ws0, after);
  }

  lemma AssignTextShape(v: Ast.VarAssign, ws0: string, ws1: string, ws2: string, rest: string)
    ensures AssignText(v, ws0, ws1, ws2) + rest
            == Prefix(v.mutable, ws0) + (BodyText(v.symbol, ws1, ws2, v.value) + (";" + rest))
  {
  }

  /** After the name comes whitespace or `=`. */
  lemma AfterName(name: string, ws1: string, ws2: string, c: Ast.Constant, t: string) returns (after: string)
    requires Tokens.AllWhitespace(ws1)
    ensures BodyText(name, ws1, ws2, c) + t == name + after
    ensures after == [] || !Tokens.IsIdentChar(after[0])
  {
    after := ws1 + ("=" + (ws2 + (Literal(c) + t)));
    BodyTextShape(name, ws1, ws2, c, t);
    if ws1 != [] {
      assert after[0] == ws1[0];
    }
  }

  /** `mut` and whitespace in front of the body. */
  lemma MutPrefix(input: string, ws0: string, body: string)
    requires input == "mut " + (ws0 + body) && Tokens.AllWhitespace(ws0) && Tokens.NoLeadingWhitespace(body)
    ensures Opt(Tokens.MutTok(input), input) == Ok(ws0 + body, Some("mut "))
    ensures Tokens.MaybeConsumeWhitespaces(ws0 + body).rest == body
  {
    Tokens.TagOf("mut ", ws0 + body);
    Tokens.MaybeConsumeWhitespacesOf(ws0, body);
  }

  /** No `mut` in front of the name. */
  lemma NoMutPrefix(name: string, after: string)
    requires Tokens.IsName(name) && name != "mut"
    requires after == [] || !Tokens.IsIdentChar(after[0])
    ensures Opt(Tokens.MutTok(name + after), name + after) == Ok(name + after, None)
    ensures Tokens.MaybeConsumeWhitespaces(name + after).rest == name + after
  {
    NotMutKeyword(name, after);
    assert (name + after)[0] == name[0];
    Tokens.MaybeConsumeWhitespacesNone(name + after);
  }

  /** `var_assignment` from the result of its `mut` step. */
  lemma MutStep(input: string, afterMut: string, body: string, mutable: bool)
    requires Opt(Tokens.MutTok(input), input) == Ok(afterMut, if mutable then Some("mut ") else None)
    requires Tokens.MaybeConsumeWhitespaces(afterMut).rest == body
    ensures C.VarAssignment(input) == C.AssignmentBody(body, mutable)
  {
  }

  /** A name other than `mut` is not taken for the keyword `mut `. */
  lemma NotMutKeyword(name: string, after: string)
    requires Tokens.IsName(name) && name != "mut"
    requires after == [] || !Tokens.IsIdentChar(after[0])
    ensures Tokens.MutTok(name + after).IsRecoverable()
  {
    var s := name + after;
    if |s| >= 4 {
      if |name| >= 4 {
        assert s[..4][3] == name[3] && Tokens.IsIdentChar(name[3]);
      } else if |name| == 3 {
        assert s[..4][..3] == name;
      } else {
        assert s[..4][|name|] == after[0];
      }
      assert s[..4] != "mut ";
    }
  }

  /** Two words before the `=`: the identifier ends at the whitespace and
      the `=` is not found. */
  lemma VarAssignmentTwoWords(name: string, ws: string, rest: string)
    requires Tokens.IsName(name) && name != "mut" && Tokens.AllWhitespace(ws) && ws != []
    requires rest != [] && rest[0] != '=' && Tokens.NoLeadingWhitespace(rest)
    ensures C.VarAssignment(name + (ws + rest)) == Tokens.Fail(rest)
  {
    WordGap(name, ws, rest);
    VarAssignmentOnBody(false, name, "", ws + rest);
    Tokens.IdentifierOf(name, ws, rest);
    TwoWordsBody(name + (ws + rest), name, rest);
  }

  lemma WordGap(name: string, ws: string, rest: string)
    requires Tokens.AllWhitespace(ws) && ws != []
    ensures !Tokens.IsIdentChar((ws + rest)[0])
    ensures name + ws + rest == name + (ws + rest)
    ensures Prefix(false, "") + (name + (ws + rest)) == name + (ws + rest)
  {
    assert (ws + rest)[0] == ws[0];
  }

  lemma TwoWordsBody(input: string, name: string, rest: string)
    requires Tokens.Identifier(input) == Ok(rest, name)
    requires rest != [] && rest[0] != '=' && Tokens.NoLeadingWhitespace(rest)
    ensures C.AssignmentBody(input, false) == Tokens.Fail(rest)
  {
    OptWhitespaceOf("", rest);
    EmptyLeft(rest);
    Tokens.TagMismatch('=', rest);
  }

  lemma EmptyLeft(s: string)
    ensures "" + s == s
  {
  }

  /** `x = 12;` from the source's tests: an immutable assignment. */
  lemma VarAssignmentExampleImmutable()
    ensures C.VarAssignment("x = 12;") == Ok("", Ast.VarAssign(false, "x", Ast.IntConst(12)))
  {
    LiteralTwelve();
    NameFacts();
    ExampleText("x = 12;", Ast.VarAssign(false, "x", Ast.IntConst(12)), " ", " ", "12");
    VarAssignmentRoundTrip(Ast.VarAssign(false, "x", Ast.IntConst(12)), "", " ", " ", "");
  }

  /** `mut x_99 = 129;`: the keyword makes the assignment mutable. */
  lemma VarAssignmentExampleMutable()
    ensures C.VarAssignment("mut x_99 = 129;") == Ok("", Ast.VarAssign(true, "x_99", Ast.IntConst(129)))
  {
    LiteralOneTwoNine();
    NameFacts();
    ExampleText("mut x_99 = 129;", Ast.VarAssign(true, "x_99", Ast.IntConst(129)), " ", " ", "129");
    VarAssignmentRoundTrip(Ast.VarAssign(true, "x_99", Ast.IntConst(129)), "", " ", " ", "");
  }

  /** `mut_x_99 = 129;`: a name that starts with `mut` is not the keyword. */
  lemma VarAssignmentExampleMutName()
    ensures C.VarAssignment("mut_x_99 = 129;") == Ok("", Ast.VarAssign(false, "mut_x_99", Ast.IntConst(129)))
  {
    LiteralOneTwoNine();
    NameFacts();
    ExampleText("mut_x_99 = 129;", Ast.VarAssign(false, "mut_x_99", Ast.IntConst(129)), " ", " ", "129");
    VarAssignmentRoundTrip(Ast.VarAssign(false, "mut_x_99", Ast.IntConst(129)), "", " ", " ", "");
  }

  /** `mut mut_x_99 = 129;` */
  lemma VarAssignmentExampleMutMutName()
    ensures C.VarAssignment("mut mut_x_99 = 129;") == Ok("", Ast.VarAssign(true, "mut_x_99", Ast.IntConst(129)))
  {
    LiteralOneTwoNine();
    NameFacts();
    MutMutNameText();
    ExampleAt("mut mut_x_99 = 129;", Ast.VarAssign(true, "mut_x_99", Ast.IntConst(129)), " ", " ", "129");
  }

  lemma MutMutNameText()
    ensures "mut mut_x_99 = 129;" == Prefix(true, "") + "mut_x_99" + " " + "=" + " " + "129" + ";"
  {
  }

  /** A whole statement given by its pieces, with nothing after it. */
  lemma ExampleAt(text: string, v: Ast.VarAssign, ws1: string, ws2: string, lit: string)
    requires Tokens.IsName(v.symbol) && HasLiteral(v.value) && (v.mutable || v.symbol != "mut")
    requires Tokens.AllWhitespace(ws1) && Tokens.AllWhitespace(ws2)
    requires Literal(v.value) == lit
    requires text == Prefix(v.mutable, "") + v.symbol + ws1 + "=" + ws2 + lit + ";"
    ensures C.VarAssignment(text) == Ok("", v)
  {
    ExampleText(text, v, ws1, ws2, lit);
    VarAssignmentRoundTrip(v, "", ws1, ws2, "");
  }

  /** `mut x=12;`, `mut x= 12;` and `mut x =12;`: `=` may touch the name or the value. */
  lemma VarAssignmentExamplesTight()
    ensures C.VarAssignment("mut x=12;") == Ok("", Ast.VarAssign(true, "x", Ast.IntConst(12)))
    ensures C.VarAssignment("mut x= 12;") == Ok("", Ast.VarAssign(true, "x", Ast.IntConst(12)))
    ensures C.VarAssignment("mut x =12;") == Ok("", Ast.VarAssign(true, "x", Ast.IntConst(12)))
  {
    var v := Ast.VarAssign(true, "x", Ast.IntConst(12));
    LiteralTwelve();
    NameFacts();
    ExampleText("mut x=12;", v, "", "", "12");
    ExampleText("mut x= 12;", v, "", " ", "12");
    ExampleText("mut x =12;", v, " ", "", "12");
    VarAssignmentRoundTrip(v, "", "", "", "");
    VarAssignmentRoundTrip(v, "", "", " ", "");
    VarAssignmentRoundTrip(v, "", " ", "", "");
  }

  /** An example statement as the layout it is made of. */
  lemma ExampleText(text: string, v: Ast.VarAssign, ws1: string, ws2: string, lit: string)
    requires Literal(v.value) == lit
    requires text == Prefix(v.mutable, "") + v.symbol + ws1 + "=" + ws2 + lit + ";"
    ensures text == AssignText(v, "", ws1, ws2) + ""
  {
  }

  lemma LiteralTwelve()
    ensures Literal(Ast.IntConst(12)) == "12" && HasLiteral(Ast.IntConst(12))
  {
    assert Literal(Ast.IntConst(12)) == "12";
  }

  lemma LiteralOneTwoNine()
    ensures Literal(Ast.IntConst(129)) == "129" && HasLiteral(Ast.IntConst(129))
  {
    assert Literal(Ast.IntConst(129)) == "129";
  }

  lemma NameFacts()
    ensures Tokens.IsName("x") && Tokens.IsName("x_99") && Tokens.IsName("mut_x_99") && "mut_x_99" != "mut"
    ensures Tokens.AllWhitespace("") && Tokens.AllWhitespace(" ")
  {
  }

  /** `mut x = 12` and `mut_x = 12` from the source's tests: no semicolon. */
  lemma VarAssignmentExamplesUnterminated()
    ensures C.VarAssignment("mut x = 12").Err?
    ensures C.VarAssignment("mut_x = 12").Err?
  {
    UnterminatedTexts();
    VarAssignmentNeedsSemicolon(true, "x", "", " ", " ", Ast.IntConst(12), "");
    VarAssignmentNeedsSemicolon(false, "mut_x", "", " ", " ", Ast.IntConst(12), "");
  }

  lemma UnterminatedTexts()
    ensures "mut x = 12" == Prefix(true, "") + (BodyText("x", " ", " ", Ast.IntConst(12)) + "")
    ensures "mut_x = 12" == Prefix(false, "") + (BodyText("mut_x", " ", " ", Ast.IntConst(12)) + "")
    ensures Tokens.IsName("x") && Tokens.IsName("mut_x") && "mut_x" != "mut"
    ensures Tokens.AllWhitespace("") && Tokens.AllWhitespace(" ")
    ensures HasLiteral(Ast.IntConst(12)) && EndsLiteral("")
  {
    assert Literal(Ast.IntConst(12)) == "12";
  }

  /** `mutable x = 12` from the source's tests: `mutable` is a name, not the
      keyword, and a second name follows it. */
  lemma VarAssignmentExampleTwoWords()
    ensures C.VarAssignment("mutable x = 12").Err?
  {
    TwoWordsText();
    VarAssignmentTwoWords("mutable", " ", "x = 12");
  }

  lemma TwoWordsText()
    ensures "mutable x = 12" == "mutable" + (" " + "x = 12")
    ensures Tokens.IsName("mutable") && "mutable" != "mut" && Tokens.AllWhitespace(" ")
    ensures Tokens.NoLeadingWhitespace("x = 12")
  {
  }
}
