/**
 * The shunting-yard expression parser. It reads an infix expression token by
 * token, without a separate lexing pass, keeping two stacks: the operators
 * not yet applied and the output, the sub-expressions already built. The
 * top of each stack is the last element of its sequence.
 *
 * Each step of the parser is defined twice: as a function on the two stacks
 * (`Reduce`, `OperatorStep`, ..., `ParseExpr`), which the lemmas reason
 * about, and as a method of the class `ShuntingYard` that updates the stacks
 * in place, proved to compute that function.
 */
module ShuntingYardParser {
  import opened Nom
  import Ast
  import Tokens
  import C = Constructs

  /** The error of a reduction that lacks an operand or an operator. */
  const InvalidBinary := PError("Invalid binary expression", OneOf)
  /** The error of a token step that finds no input. */
  const NoToken := PError("Not a valid binary expression", OneOf)
  /** The error `parse` reports when its first token cannot be read. */
  const NoExpression := PError("Not a valid binary expression", Many1)

  function Last<T>(s: seq<T>): T
    requires s != []
  {
    s[|s| - 1]
  }

  /** The operator stack and the output stack. */
  datatype Stacks = Stacks(operators: seq<Ast.Operator>, output: seq<Ast.Instr>)

  /** The stacks after a step, and what the step returned. */
  datatype Outcome = Outcome(stacks: Stacks, result: IResult<()>)

  // ---------------------------------------------------------------------
  // reduce_output

  /** `reduce_output`: pop the right operand, then the left one, then the
      operator, and push the binary operation they form. A missing operand
      or operator is a recoverable error; whatever was popped before it
      stays popped. */
  function Reduce(s: Stacks): (o: Outcome)
    ensures o.result.Ok? <==> |s.output| >= 2 && s.operators != []
    ensures o.result.Ok? ==>
      var n := |s.output|;
      && o.result.rest == ""
      && o.stacks.operators == s.operators[..|s.operators| - 1]
      && |o.stacks.output| == n - 1
      && o.stacks.output[..n - 2] == s.output[..n - 2]
      && Last(o.stacks.output) == Ast.BinOp(s.output[n - 2], s.output[n - 1], Last(s.operators))
    ensures o.result.Err? ==>
      && o.result == Err(Error(InvalidBinary))
      && o.stacks.operators == s.operators
      && o.stacks.output == s.output[..if |s.output| < 2 then 0 else |s.output| - 2]
  {
    var n := |s.output|;
    if n == 0 then Outcome(s, Err(Error(InvalidBinary)))
    else if n == 1 then Outcome(Stacks(s.operators, []), Err(Error(InvalidBinary)))
    else if s.operators == [] then Outcome(Stacks(s.operators, s.output[..n - 2]), Err(Error(InvalidBinary)))
    else
      var rhs := s.output[n - 1];
      var lhs := s.output[n - 2];
      var op := Last(s.operators);
      Outcome(Stacks(s.operators[..|s.operators| - 1], s.output[..n - 2] + [Ast.BinOp(lhs, rhs, op)]), Ok("", ()))
  }

  // ---------------------------------------------------------------------
  // operator

  /** The rule that makes an incoming operator reduce the one on top of the
      stack: the top binds strictly tighter, or as tightly and the incoming
      operator is left-associative. */
  predicate ShouldReduce(top: Ast.Operator, op: Ast.Operator) {
    top.Precedence() > op.Precedence()
    || (top.Precedence() == op.Precedence() && op.IsLeftAssociative())
  }

  /** `p` is a prefix of `s`. */
  ghost predicate IsPrefix<T>(p: seq<T>, s: seq<T>) {
    |p| <= |s| && s[..|p|] == p
  }

  /** The reduction loop before an arithmetic operator is pushed. Each
      reduction removes one operator and one output node; the loop stops
      below the first operator the incoming one does not yield to. */
  function ReduceWhileHigher(s: Stacks, op: Ast.Operator): (o: Outcome)
    ensures IsPrefix(o.stacks.operators, s.operators)
    ensures o.result.Ok? ==> o.result.rest == ""
    ensures o.result.Ok? ==> o.stacks.operators == [] || !ShouldReduce(Last(o.stacks.operators), op)
    ensures o.result.Ok? ==> |s.output| - |o.stacks.output| == |s.operators| - |o.stacks.operators|
    ensures o.result.Err? ==> o.result == Err(Error(InvalidBinary))
    decreases |s.operators|
  {
    if s.operators != [] && ShouldReduce(Last(s.operators), op) then
      var o := Reduce(s);
      if o.result.Err? then o else ReduceWhileHigher(o.stacks, op)
    else Outcome(s, Ok("", ()))
  }

  /** The reduction loop of `)`: reduce until `(` is on top. The `(` it
      stops at is the nearest one: every operator it reduced was another. */
  function ReduceUntilParen(s: Stacks): (o: Outcome)
    ensures IsPrefix(o.stacks.operators, s.operators)
    ensures o.result.Ok? ==> o.result.rest == ""
    ensures o.result.Ok? ==> o.stacks.operators != [] && Last(o.stacks.operators) == Ast.LeftParenthesis
    ensures o.result.Ok? ==>
      forall j :: |o.stacks.operators| <= j < |s.operators| ==> s.operators[j] != Ast.LeftParenthesis
    ensures o.result.Ok? ==> |s.output| - |o.stacks.output| == |s.operators| - |o.stacks.operators|
    ensures o.result.Err? ==> o.result == Err(Error(InvalidBinary))
    decreases |s.operators|
  {
    if s.operators != [] && Last(s.operators) == Ast.LeftParenthesis then Outcome(s, Ok("", ()))
    else
      var o := Reduce(s);
      if o.result.Err? then o else ReduceUntilParen(o.stacks)
  }

  /** The operator a one-character operator token stands for. */
  function OperatorOf(c: char): Ast.Operator
    requires Tokens.IsOperator(c)
  {
    match c
    case '+' => Ast.Add
    case '-' => Ast.Sub
    case '*' => Ast.Mul
    case '/' => Ast.Div
    case '(' => Ast.LeftParenthesis
    case _ => Ast.RightParenthesis
  }

  /** The value a recognised operator token carries. */
  function AsOperator(r: IResult<string>, op: Ast.Operator): IResult<Ast.Operator> {
    match r
    case Ok(rest, _) => Ok(rest, op)
    case Err(e) => Err(e)
  }

  /** `alt((add, sub, mul, div, left_parenthesis, right_parenthesis))`. */
  function OperatorToken(input: string): (r: IResult<Ast.Operator>)
    ensures r.Ok? <==> input != [] && Tokens.IsOperator(input[0])
    ensures r.Ok? ==> r.rest == input[1..] && r.value == OperatorOf(input[0])
    ensures r.Err? ==> r == Tokens.Fail(input)
  {
    Alt(AsOperator(Tokens.Add(input), Ast.Add),
    Alt(AsOperator(Tokens.Sub(input), Ast.Sub),
    Alt(AsOperator(Tokens.Mul(input), Ast.Mul),
    Alt(AsOperator(Tokens.Div(input), Ast.Div),
    Alt(AsOperator(Tokens.LeftParenthesis(input), Ast.LeftParenthesis),
        AsOperator(Tokens.RightParenthesis(input), Ast.RightParenthesis))))))
  }

  function PushOperator(s: Stacks, op: Ast.Operator): Stacks {
    Stacks(s.operators + [op], s.output)
  }

  function PopOperator(s: Stacks): Stacks
    requires s.operators != []
  {
    Stacks(s.operators[..|s.operators| - 1], s.output)
  }

  /** What `operator` does to the stacks once it has read `op`: an
      arithmetic operator first reduces every operator it yields to and is
      then pushed; `(` is pushed as it is; `)` reduces down to the nearest
      `(` and removes it. */
  function ApplyOperator(s: Stacks, op: Ast.Operator, rest: string): (o: Outcome)
    ensures o.result.Ok? ==> o.result.rest == rest
    ensures o.result.Err? ==> o.result == Err(Error(InvalidBinary))
  {
    if op != Ast.LeftParenthesis && op != Ast.RightParenthesis then
      var o := ReduceWhileHigher(s, op);
      if o.result.Err? then o else Outcome(PushOperator(o.stacks, op), Ok(rest, ()))
    else if op == Ast.LeftParenthesis then
      Outcome(PushOperator(s, op), Ok(rest, ()))
    else
      var o := ReduceUntilParen(s);
      if o.result.Err? then o else Outcome(PopOperator(o.stacks), Ok(rest, ()))
  }

  /** `operator`: read one operator token and apply it to the stacks. */
  function OperatorStep(s: Stacks, input: string): (o: Outcome)
    ensures o.result.Ok? ==> |o.result.rest| < |input|
    ensures o.result.Err? ==> o.result == Err(Error(InvalidBinary)) || (o.stacks == s && o.result.IsRecoverable())
    ensures o.result.Err? && o.result != Err(Error(InvalidBinary)) ==>
      var w := Tokens.MaybeConsumeExtra(input).rest;
      w == [] || !Tokens.IsOperator(w[0])
  {
    var w := Tokens.MaybeConsumeExtra(input);
    match OperatorToken(w.rest)
    case Err(e) => Outcome(s, Err(e))
    case Ok(afterOp, op) => ApplyOperator(s, op, Tokens.MaybeConsumeExtra(afterOp).rest)
  }

  // ---------------------------------------------------------------------
  // operand

  /** A parsed call as an instruction. */
  function AsCall(r: IResult<Ast.FunctionCall>): IResult<Ast.Instr> {
    match r
    case Ok(rest, call) => Ok(rest, Ast.Call(call))
    case Err(e) => Err(e)
  }

  /** A parsed constant as an instruction. */
  function AsConst(r: IResult<Ast.Constant>): IResult<Ast.Instr> {
    match r
    case Ok(rest, c) => Ok(rest, Ast.Const(c))
    case Err(e) => Err(e)
  }

  /** A variable reference: an identifier. */
  function Variable(input: string): (r: IResult<Ast.Instr>)
    ensures r.Ok? ==> |r.rest| < |input|
    ensures r.Ok? <==> Tokens.Identifier(input).Ok?
    ensures r.Ok? ==> r == Ok(Tokens.Identifier(input).rest, Ast.Var(Tokens.Identifier(input).value))
  {
    match Tokens.Identifier(input)
    case Ok(rest, name) => Ok(rest, Ast.Var(name))
    case Err(e) => Err(e)
  }

  /** `alt((function_call, constant, variable))`. Since `constant` never
      fails recoverably, the variable alternative is never the one that
      answers. */
  function OperandParse(input: string): (r: IResult<Ast.Instr>)
    ensures r.Ok? ==> |r.rest| < |input|
    ensures r.Ok? ==> r.value.Call? || r.value.Const?
  {
    Alt(AsCall(C.FunctionCall(input)), Alt(AsConst(C.Constant(input)), Variable(input)))
  }

  /** `operand`: parse an operand and push it, and only it, on the output;
      the operator stack is never touched, and an error changes nothing. */
  function OperandStep(s: Stacks, input: string): (o: Outcome)
    ensures o.result.Ok? ==> |o.result.rest| < |input|
    ensures o.stacks.operators == s.operators
    ensures o.result.Ok? <==> OperandParse(input).Ok?
    ensures OperandParse(input).Err? ==> o == Outcome(s, Err(OperandParse(input).err))
    ensures o.result.Ok? ==>
      && o.result.rest == OperandParse(input).rest
      && o.stacks.output == s.output + [OperandParse(input).value]
  {
    match OperandParse(input)
    case Err(e) => Outcome(s, Err(e))
    case Ok(rest, e) => Outcome(Stacks(s.operators, s.output + [e]), Ok(rest, ()))
  }

  // ---------------------------------------------------------------------
  // handle_token

  /** `handle_token`: skip blanks, then read an operator or an operand
      according to the first character, then skip blanks again. No input
      left is the recoverable `OneOf` error that ends the token loop. */
  function HandleTokenStep(s: Stacks, input: string): (o: Outcome)
    ensures o.result.Ok? ==> |o.result.rest| < |input|
  {
    var w := Tokens.MaybeConsumeExtra(input);
    if w.rest == [] then Outcome(s, Err(Error(NoToken)))
    else
      var o := if Tokens.IsOperator(w.rest[0]) then OperatorStep(s, w.rest) else OperandStep(s, w.rest);
      match o.result
      case Err(_) => o
      case Ok(rest, _) => Outcome(o.stacks, Ok(Tokens.MaybeConsumeExtra(rest).rest, ()))
  }

  // ---------------------------------------------------------------------
  // parse

  /** The token loop of `parse`: handle tokens until a `OneOf` error or a
      step that consumes nothing; any other error ends the parse. On a
      break the result carries the input that is left. */
  function TokenLoop(s: Stacks, input: string): (o: Outcome)
    ensures o.result.Ok? ==> |o.result.rest| <= |input|
    decreases |input|
  {
    var h := HandleTokenStep(s, input);
    match h.result
    case Err(e) =>
      if e.Error? && e.e.kind == OneOf then Outcome(h.stacks, Ok(input, ()))
      else Outcome(h.stacks, Err(e))
    case Ok(next, _) =>
      if next == input then Outcome(h.stacks, Ok(input, ())) else TokenLoop(h.stacks, next)
  }

  /** The final loop of `parse`: reduce until no operator is left. */
  function Drain(s: Stacks): (o: Outcome)
    ensures o.result.Ok? ==> o.stacks.operators == []
    ensures o.result.Ok? ==> |s.output| - |o.stacks.output| == |s.operators|
    ensures o.result.Err? ==> o.result == Err(Error(InvalidBinary))
    decreases |s.operators|
  {
    if s.operators == [] then Outcome(s, Ok("", ()))
    else
      var o := Reduce(s);
      if o.result.Err? then o else Drain(o.stacks)
  }

  /** `ShuntingYard::parse`: the expression is the top output node left
      once every operator is applied. */
  function ParseExpr(i: string): (r: IResult<Ast.Instr>)
    ensures r.Ok? ==> |r.rest| < |i|
  {
    var h := HandleTokenStep(Stacks([], []), i);
    match h.result
    case Err(e) => if e.Error? then Err(Error(NoExpression)) else Err(e)
    case Ok(next, _) => ParseRest(h.stacks, next)
  }

  /** What `parse` does after its first token: the token loop, the drain,
      and the top output node. */
  function ParseRest(s: Stacks, next: string): (r: IResult<Ast.Instr>)
    ensures r.Ok? ==> |r.rest| <= |next|
  {
    AfterLoop(TokenLoop(s, next))
  }

  /** After the token loop: its error, or the drain and the top output
      node, with the input the loop left. */
  function AfterLoop(l: Outcome): (r: IResult<Ast.Instr>)
    ensures r.Ok? ==> l.result.Ok? && r.rest == l.result.rest
  {
    match l.result
    case Err(e) => Err(e)
    case Ok(input, _) =>
      var d := Drain(l.stacks);
      if d.result.Err? then Err(d.result.err)
      else if d.stacks.output == [] then Err(Error(InvalidBinary))
      else Ok(input, Last(d.stacks.output))
  }

  // ---------------------------------------------------------------------
  // The parser object

  /** The parser state: the two stacks, updated in place by each step. */
  class ShuntingYard {
    var operators: seq<Ast.Operator>
    var output: seq<Ast.Instr>

    function State(): Stacks
      reads this
    {
      Stacks(operators, output)
    }

    /** `ShuntingYard::new`: both stacks empty. */
    constructor ()
      ensures operators == [] && output == []
    {
      operators := [];
      output := [];
    }

    /** `reduce_output`, popping in place. */
    method ReduceOutput() returns (r: IResult<()>)
      modifies this
      ensures Outcome(State(), r) == Reduce(old(State()))
    {
      if output == [] {
        return Err(Error(InvalidBinary));
      }
      var rhs := output[|output| - 1];
      output := output[..|output| - 1];
      if output == [] {
        return Err(Error(InvalidBinary));
      }
      var lhs := output[|output| - 1];
      output := output[..|output| - 1];
      if operators == [] {
        return Err(Error(InvalidBinary));
      }
      var op := operators[|operators| - 1];
      operators := operators[..|operators| - 1];
      output := output + [Ast.BinOp(lhs, rhs, op)];
      r := Ok("", ());
    }

    /** The first reduction loop of `operator`: reduce while the operator
        on top yields to `op`. */
    method ReduceHigher(op: Ast.Operator) returns (r: IResult<()>)
      modifies this
      ensures Outcome(State(), r) == ReduceWhileHigher(old(State()), op)
    {
      while operators != [] && ShouldReduce(operators[|operators| - 1], op)
        invariant ReduceWhileHigher(State(), op) == ReduceWhileHigher(old(State()), op)
        decreases |operators|
      {
        var e := ReduceOutput();
        if e.Err? {
          return e;
        }
      }
      r := Ok("", ());
    }

    /** The second reduction loop of `operator`: reduce until `(` is on top. */
    method ReduceToParen() returns (r: IResult<()>)
      modifies this
      ensures Outcome(State(), r) == ReduceUntilParen(old(State()))
    {
      while !(operators != [] && operators[|operators| - 1] == Ast.LeftParenthesis)
        invariant ReduceUntilParen(State()) == ReduceUntilParen(old(State()))
        decreases |operators|
      {
        var e := ReduceOutput();
        if e.Err? {
          return e;
        }
      }
      r := Ok("", ());
    }

    /** `operator`: read one operator token, then push it after the
        reductions it calls for, push `(`, or reduce down to `(` for `)`
        and drop the `(`. */
    method Operator(input: string) returns (r: IResult<()>)
      modifies this
      ensures Outcome(State(), r) == OperatorStep(old(State()), input)
    {
      var w := Tokens.MaybeConsumeExtra(input);
      var tok := OperatorToken(w.rest);
      if tok.Err? {
        return Err(tok.err);
      }
      var rest := Tokens.MaybeConsumeExtra(tok.rest).rest;
      var op := tok.value;
      if op != Ast.LeftParenthesis && op != Ast.RightParenthesis {
        var e := ReduceHigher(op);
        if e.Err? {
          return e;
        }
        operators := operators + [op];
      } else if op == Ast.LeftParenthesis {
        operators := operators + [op];
      } else {
        var e := ReduceToParen();
        if e.Err? {
          return e;
        }
        operators := operators[..|operators| - 1];
      }
      r := Ok(rest, ());
    }

    /** `operand`: push the parsed operand on the output. */
    method Operand(input: string) returns (r: IResult<()>)
      modifies this
      ensures Outcome(State(), r) == OperandStep(old(State()), input)
    {
      var e := OperandParse(input);
      if e.Err? {
        return Err(e.err);
      }
      output := output + [e.value];
      r := Ok(e.rest, ());
    }

    /** `handle_token`. */
    method HandleToken(input: string) returns (r: IResult<()>)
      modifies this
      ensures Outcome(State(), r) == HandleTokenStep(old(State()), input)
    {
      var w := Tokens.MaybeConsumeExtra(input);
      if w.rest == [] {
        return Err(Error(NoToken));
      }
      var step;
      if Tokens.IsOperator(w.rest[0]) {
        step := Operator(w.rest);
      } else {
        step := Operand(w.rest);
      }
      if step.Err? {
        return step;
      }
      r := Ok(Tokens.MaybeConsumeExtra(step.rest).rest, ());
    }

    /** The token loop of `parse`: handle tokens until one is refused
        recoverably with `OneOf` or consumes nothing; any other error ends
        the parse. */
    method HandleTokens(i: string) returns (r: IResult<()>)
      modifies this
      ensures Outcome(State(), r) == TokenLoop(old(State()), i)
    {
      var input := i;
      ghost var expected := TokenLoop(State(), input);
      var stop := false;
      while !stop
        invariant !stop ==> TokenLoop(State(), input) == expected
        invariant stop ==> expected == Outcome(State(), Ok(input, ()))
        decreases |input|, !stop
      {
        var t := HandleToken(input);
        if t.Err? {
          if t.err.Error? && t.err.e.kind == OneOf {
            stop := true;
          } else {
            return Err(t.err);
          }
        } else if t.rest == input {
          stop := true;
        } else {
          input := t.rest;
        }
      }
      r := Ok(input, ());
    }

    /** The final loop of `parse`: reduce while an operator is left. */
    method ReduceAll() returns (r: IResult<()>)
      modifies this
      ensures Outcome(State(), r) == Drain(old(State()))
    {
      ghost var drained := Drain(State());
      while operators != []
        invariant Drain(State()) == drained
        decreases |operators|
      {
        var e := ReduceOutput();
        if e.Err? {
          return e;
        }
      }
      r := Ok("", ());
    }

    /** `ShuntingYard::parse`: a fresh parser, the first token, then the
        rest of the expression. */
    static method Parse(i: string) returns (r: IResult<Ast.Instr>)
      ensures r == ParseExpr(i)
    {
      var sy := new ShuntingYard();
      var first := sy.HandleToken(i);
      if first.Err? {
        if first.err.Error? {
          return Err(Error(NoExpression));
        }
        return Err(first.err);
      }
      r := sy.Finish(first.rest);
    }

    /** The token loop, then the draining loop, then the top output node. */
    method Finish(input: string) returns (r: IResult<Ast.Instr>)
      modifies this
      ensures r == ParseRest(old(State()), input)
    {
      var l := HandleTokens(input);
      r := DrainAndPop(l);
    }

    /** The draining loop and the final pop, after the token loop returned `l`. */
    method DrainAndPop(l: IResult<()>) returns (r: IResult<Ast.Instr>)
      modifies this
      ensures r == AfterLoop(Outcome(old(State()), l))
    {
      if l.Err? {
        return Err(l.err);
      }
      var d := ReduceAll();
      if d.Err? {
        return Err(d.err);
      }
      if output == [] {
        return Err(Error(InvalidBinary));
      }
      r := Ok(l.rest, output[|output| - 1]);
    }
  }
}
