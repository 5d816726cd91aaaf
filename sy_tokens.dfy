/**
 * A token-level reference for the shunting-yard parser. A list of tokens
 * (literals, calls without arguments and one-character operators), each
 * followed by some blanks, is written out as text; the textbook algorithm
 * run on the token list gives the same stacks and the same result as the
 * character-level parser run on the text.
 */
module ShuntingYardTokens {
  import opened Nom
  import Ast
  import Tokens
  import opened ShuntingYardParser
  import opened ConstantProps
  import P = ShuntingYardProps

  datatype Token = Lit(c: Ast.Constant) | CallTok(name: string) | Op(op: Ast.Operator)

  /** A token and the blanks written after it. */
  datatype Item = Item(token: Token, blank: string)

  ghost predicate ValidToken(t: Token) {
    match t
    case Lit(c) => HasLiteral(c)
    case CallTok(name) => Tokens.IsName(name)
    case Op(_) => true
  }

  /** Well-formed tokens whose blanks are whitespace, with at least one
      blank between two literals, so that they are not read as one. */
  ghost predicate ValidItems(items: seq<Item>) {
    && (forall i :: 0 <= i < |items| ==> ValidToken(items[i].token) && Tokens.AllWhitespace(items[i].blank))
    && (forall i :: 0 < i < |items| && items[i - 1].token.Lit? && items[i].token.Lit? ==> items[i - 1].blank != [])
  }

  /** The character of an operator token: the inverse of `OperatorOf`. */
  function Symbol(op: Ast.Operator): (c: char)
    ensures Tokens.IsOperator(c) && OperatorOf(c) == op
  {
    match op
    case Add => '+'
    case Sub => '-'
    case Mul => '*'
    case Div => '/'
    case LeftParenthesis => '('
    case RightParenthesis => ')'
  }

  function TokenText(t: Token): string {
    match t
    case Lit(c) => Literal(c)
    case CallTok(name) => name + "()"
    case Op(op) => [Symbol(op)]
  }

  /** The items written out. */
  function Render(items: seq<Item>): string
    decreases |items|
  {
    if items == [] then "" else TokenText(items[0].token) + (items[0].blank + Render(items[1..]))
  }

  /** One token of the textbook algorithm: an operand goes to the output,
      an operator is applied to the stacks. Only an operator can fail, and
      only by lacking an operand or a `(`. */
  function Step(s: Stacks, t: Token): (o: Outcome)
    ensures o.result.Err? ==> t.Op? && o.result == Err(Error(InvalidBinary))
  {
    match t
    case Lit(c) => Outcome(Stacks(s.operators, s.output + [Ast.Const(c)]), Ok("", ()))
    case CallTok(name) => Outcome(Stacks(s.operators, s.output + [Ast.Call(Ast.FunctionCall(name, []))]), Ok("", ()))
    case Op(op) => ApplyOperator(s, op, "")
  }

  /** The textbook loop over the tokens after the first. A failing token
      stops it, and the text from that token on is what is left. */
  function Run(s: Stacks, items: seq<Item>): (o: Outcome)
    ensures o.result.Ok?
    decreases |items|
  {
    if items == [] then Outcome(s, Ok("", ()))
    else
      var o := Step(s, items[0].token);
      if o.result.Err? then Outcome(o.stacks, Ok(Render(items), ()))
      else Run(o.stacks, items[1..])
  }

  /** `parse` on tokens: the first token, the loop over the others, then
      every operator left is applied and the top of the output is the
      expression. */
  function ParseTokens(items: seq<Item>): IResult<Ast.Instr>
    requires items != []
  {
    var h := Step(Stacks([], []), items[0].token);
    if h.result.Err? then Err(Error(NoExpression))
    else
      var l := Run(h.stacks, items[1..]);
      var d := Drain(l.stacks);
      if d.result.Err? then Err(d.result.err)
      else if d.stacks.output == [] then Err(Error(InvalidBinary))
      else Ok(l.result.rest, Last(d.stacks.output))
  }

  // ---------------------------------------------------------------------
  // Text facts

  lemma ValidTail(items: seq<Item>)
    requires items != [] && ValidItems(items)
    ensures ValidItems(items[1..])
  {
    assert forall i :: 0 <= i < |items[1..]| ==> items[1..][i] == items[i + 1];
  }

  lemma RenderShorter(items: seq<Item>)
    requires items != [] && ValidItems(items)
    ensures |Render(items[1..])| < |Render(items)|
  {
    if items[0].token.Lit? {
      LiteralStart(items[0].token.c);
    }
  }

  /** A rendering starts with no blank; one that starts with no literal
      starts with an operator or a letter. */
  lemma RenderStart(items: seq<Item>)
    requires ValidItems(items)
    ensures Tokens.NoLeadingWhitespace(Render(items))
    ensures items != [] && !items[0].token.Lit? ==>
      Render(items) != [] && (Tokens.IsOperator(Render(items)[0]) || Tokens.IsIdentStart(Render(items)[0]))
  {
    if items != [] {
      var t := items[0].token;
      match t
      case Lit(c) =>
        LiteralStart(c);
        assert Render(items)[0] == Literal(c)[0];
      case CallTok(name) =>
        assert Render(items)[0] == name[0];
      case Op(op) =>
        assert Render(items)[0] == Symbol(op);
    }
  }

  /** The text after a literal does not continue it. */
  lemma AfterLiteral(items: seq<Item>)
    requires items != [] && ValidItems(items) && items[0].token.Lit?
    ensures EndsLiteral(items[0].blank + Render(items[1..]))
  {
    var rest := items[1..];
    ValidTail(items);
    RenderStart(rest);
    if items[0].blank != [] {
      assert (items[0].blank + Render(rest))[0] == items[0].blank[0];
    } else {
      assert items[0].blank + Render(rest) == Render(rest);
      if rest != [] {
        assert rest[0] == items[1];
        GapAt(items, 1);
        assert !rest[0].token.Lit?;
        var c := Render(rest)[0];
        NotInLiteral(c);
      }
    }
  }

  lemma GapAt(items: seq<Item>, i: int)
    requires ValidItems(items) && 0 < i < |items|
    ensures items[i - 1].token.Lit? && items[i].token.Lit? ==> items[i - 1].blank != []
  {
  }

  lemma NotInLiteral(c: char)
    requires Tokens.IsOperator(c) || Tokens.IsIdentStart(c)
    ensures !(Tokens.IsDigit(c) || c == '.' || c == '"')
  {
  }

  // ---------------------------------------------------------------------
  // One token

  /** A call without arguments as a whole token step. */
  lemma CallToken(s: Stacks, input: string, name: string, ws: string, rest: string)
    requires input == name + "()" + (ws + rest) && Tokens.IsName(name)
    requires Tokens.AllWhitespace(ws) && Tokens.NoLeadingWhitespace(rest)
    ensures HandleTokenStep(s, input)
         == Outcome(Stacks(s.operators, s.output + [Ast.Call(Ast.FunctionCall(name, []))]), Ok(rest, ()))
  {
    CallStart(input, name, ws + rest);
    P.CallOperand(s, name, ws + rest);
    Tokens.MaybeConsumeWhitespacesOf(ws, rest);
    CallTokenAt(s, input, ws + rest, rest);
  }

  lemma CallStart(input: string, name: string, after: string)
    requires input == name + "()" + after && Tokens.IsName(name)
    ensures input != [] && !Tokens.IsOperator(input[0])
    ensures Tokens.MaybeConsumeExtra(input).rest == input
  {
    assert input[0] == name[0];
    Tokens.MaybeConsumeWhitespacesNone(input);
  }

  lemma CallTokenAt(s: Stacks, input: string, after: string, rest: string)
    requires input != [] && !Tokens.IsOperator(input[0])
    requires Tokens.MaybeConsumeExtra(input).rest == input
    requires OperandStep(s, input).result == Ok(after, ())
    requires Tokens.MaybeConsumeExtra(after).rest == rest
    ensures HandleTokenStep(s, input) == Outcome(OperandStep(s, input).stacks, Ok(rest, ()))
  {
  }

  /** A token step on rendered text does what `Step` does to the stacks and
      leaves the rendering of the items after it. */
  lemma HandleTokenRender(s: Stacks, items: seq<Item>)
    requires items != [] && ValidItems(items)
    ensures var h := HandleTokenStep(s, Render(items));
      var o := Step(s, items[0].token);
      && h.stacks == o.stacks
      && (o.result.Ok? ==> h.result == Ok(Render(items[1..]), ()))
      && (o.result.Err? ==> h.result == o.result)
  {
    var t, ws, rest := items[0].token, items[0].blank, items[1..];
    ValidTail(items);
    RenderStart(rest);
    var input := Render(items);
    match t
    case Lit(c) =>
      AfterLiteral(items);
      P.ConstantOperand(s, input, c, ws, Render(rest));
    case CallTok(name) =>
      CallToken(s, input, name, ws, Render(rest));
    case Op(op) =>
      P.OperatorOperand(s, input, Symbol(op), ws, Render(rest));
      P.ApplyOperatorRest(s, op, Render(rest), "");
  }

  // ---------------------------------------------------------------------
  // The agreement

  /** The token loop on rendered text is the textbook loop on the tokens. */
  lemma {:induction false} TokenLoopRender(s: Stacks, items: seq<Item>)
    requires ValidItems(items)
    ensures TokenLoop(s, Render(items)) == Run(s, items)
    decreases |items|
  {
    if items == [] {
      P.LoopEnd(s);
    } else {
      var o := Step(s, items[0].token);
      HandleTokenRender(s, items);
      RenderShorter(items);
      LoopAt(s, Render(items), o, Render(items[1..]));
      if o.result.Ok? {
        ValidTail(items);
        TokenLoopRender(o.stacks, items[1..]);
      }
    }
  }

  /** One turn of the token loop, given what the token step did. */
  lemma LoopAt(s: Stacks, input: string, o: Outcome, rest: string)
    requires HandleTokenStep(s, input).stacks == o.stacks
    requires o.result.Ok? ==> HandleTokenStep(s, input).result == Ok(rest, ()) && |rest| < |input|
    requires o.result.Err? ==> HandleTokenStep(s, input).result == Err(Error(InvalidBinary))
    ensures o.result.Ok? ==> TokenLoop(s, input) == TokenLoop(o.stacks, rest)
    ensures o.result.Err? ==> TokenLoop(s, input) == Outcome(o.stacks, Ok(input, ()))
  {
  }

  /** `parse` on rendered text is `parse` on the tokens. */
  lemma ParseRender(items: seq<Item>)
    requires items != [] && ValidItems(items)
    ensures ParseExpr(Render(items)) == ParseTokens(items)
  {
    HandleTokenRender(Stacks([], []), items);
    ValidTail(items);
    TokenLoopRender(Step(Stacks([], []), items[0].token).stacks, items[1..]);
  }

  /** `ParseRender` for text given as a variable. */
  lemma ParseIn(input: string, items: seq<Item>, r: IResult<Ast.Instr>)
    requires items != [] && ValidItems(items)
    requires Render(items) == input && ParseTokens(items) == r
    ensures ParseExpr(input) == r
  {
    ParseRender(items);
  }

  // ---------------------------------------------------------------------
  // Building token lists one item at a time

  lemma ValidCons(x: Item, items: seq<Item>)
    requires ValidToken(x.token) && Tokens.AllWhitespace(x.blank) && ValidItems(items)
    requires x.token.Lit? && items != [] && items[0].token.Lit? ==> x.blank != []
    ensures ValidItems([x] + items) && ([x] + items)[0] == x && ([x] + items)[1..] == items
  {
    assert forall i :: 0 < i < |[x] + items| ==> ([x] + items)[i] == items[i - 1];
  }

  lemma RenderCons(x: Item, items: seq<Item>, text: string, full: string)
    requires Render(items) == text && TokenText(x.token) + (x.blank + text) == full
    ensures Render([x] + items) == full
  {
    assert ([x] + items)[1..] == items;
  }

  lemma RunCons(s: Stacks, x: Item, items: seq<Item>, s': Stacks)
    requires Step(s, x.token) == Outcome(s', Ok("", ()))
    ensures Run(s, [x] + items) == Run(s', items)
  {
    assert ([x] + items)[0] == x && ([x] + items)[1..] == items;
  }

  /** A token that fails stops the loop; the text from it on is left. */
  lemma RunStops(s: Stacks, x: Item, items: seq<Item>, s': Stacks)
    requires Step(s, x.token) == Outcome(s', Err(Error(InvalidBinary)))
    ensures Run(s, [x] + items) == Outcome(s', Ok(Render([x] + items), ()))
  {
    assert ([x] + items)[0] == x;
  }

  /** A parse of tokens that ends with the stacks `s3`. */
  lemma ParseTokensOf(x: Item, items: seq<Item>, s1: Stacks, s2: Stacks, s3: Stacks)
    requires Step(Stacks([], []), x.token) == Outcome(s1, Ok("", ()))
    requires Run(s1, items) == Outcome(s2, Ok("", ()))
    requires Drain(s2) == Outcome(s3, Ok("", ())) && s3.output != []
    ensures ParseTokens([x] + items) == Ok("", Last(s3.output))
  {
    assert ([x] + items)[0] == x && ([x] + items)[1..] == items;
  }

  /** A parse of tokens that ends with no operand or an operator short of
      one. */
  lemma ParseTokensFails(x: Item, items: seq<Item>, s1: Stacks, s2: Stacks, rest: string)
    requires Step(Stacks([], []), x.token) == Outcome(s1, Ok("", ()))
    requires Run(s1, items) == Outcome(s2, Ok(rest, ()))
    requires Drain(s2).result.Err? || Drain(s2).stacks.output == []
    ensures ParseTokens([x] + items) == Err(Error(InvalidBinary))
  {
    assert ([x] + items)[0] == x && ([x] + items)[1..] == items;
  }
}
