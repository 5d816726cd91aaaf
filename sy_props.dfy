/**
 * Properties of the shunting-yard parser: how each operator changes the
 * stacks, the shape the operator stack keeps, how the first token and the
 * end of input are handled, and how each kind of token step behaves.
 */
module ShuntingYardProps {
  import opened Nom
  import Ast
  import Tokens
  import C = Constructs
  import opened ShuntingYardParser
  import opened ConstantProps
  import CallProps

  // ---------------------------------------------------------------------
  // Operators

  /** An arithmetic operator ends up on top of the operator stack, above
      what is left of the old stack, whose top it does not yield to. Every
      operator it removed was reduced into the output. */
  lemma ArithmeticOnTop(s: Stacks, op: Ast.Operator, rest: string)
    requires op != Ast.LeftParenthesis && op != Ast.RightParenthesis
    requires ApplyOperator(s, op, rest).result.Ok?
    ensures var o := ApplyOperator(s, op, rest).stacks;
      && o.operators != [] && Last(o.operators) == op
      && IsPrefix(o.operators[..|o.operators| - 1], s.operators)
      && (|o.operators| == 1 || !ShouldReduce(o.operators[|o.operators| - 2], op))
      && |s.output| - |o.output| == |s.operators| + 1 - |o.operators|
  {
    var r := ReduceWhileHigher(s, op);
    var ops := r.stacks.operators + [op];
    assert ops[..|ops| - 1] == r.stacks.operators;
  }

  /** What an operator does to the stacks does not depend on the text
      after it. */
  lemma ApplyOperatorRest(s: Stacks, op: Ast.Operator, rest1: string, rest2: string)
    ensures ApplyOperator(s, op, rest1).stacks == ApplyOperator(s, op, rest2).stacks
    ensures ApplyOperator(s, op, rest1).result.Ok? <==> ApplyOperator(s, op, rest2).result.Ok?
  {
  }

  /** `(` is pushed without any reduction. */
  lemma LeftParenPushed(s: Stacks, rest: string)
    ensures ApplyOperator(s, Ast.LeftParenthesis, rest)
         == Outcome(Stacks(s.operators + [Ast.LeftParenthesis], s.output), Ok(rest, ()))
  {
  }

  /** `)` removes the nearest `(` and every operator above it, each of the
      latter reduced into the output, and pushes nothing. */
  lemma RightParenMatched(s: Stacks, rest: string)
    requires ApplyOperator(s, Ast.RightParenthesis, rest).result.Ok?
    ensures var o := ApplyOperator(s, Ast.RightParenthesis, rest).stacks;
      && |o.operators| < |s.operators| && IsPrefix(o.operators, s.operators)
      && s.operators[|o.operators|] == Ast.LeftParenthesis
      && (forall j :: |o.operators| < j < |s.operators| ==> s.operators[j] != Ast.LeftParenthesis)
      && |s.output| - |o.output| == |s.operators| - 1 - |o.operators|
  {
    var r := ReduceUntilParen(s);
    var ops := r.stacks.operators;
    assert ops[..|ops| - 1] == s.operators[..|ops| - 1];
  }

  /** A `)` with no `(` below it fails with the recoverable error of the
      reduction that runs out of operators. */
  lemma {:induction false} UnmatchedRightParen(s: Stacks)
    requires Ast.LeftParenthesis !in s.operators
    ensures ReduceUntilParen(s).result == Err(Error(InvalidBinary))
    decreases |s.operators|
  {
    if s.operators != [] {
      assert Last(s.operators) in s.operators;
      var o := Reduce(s);
      if o.result.Ok? {
        assert forall x :: x in o.stacks.operators ==> x in s.operators;
        UnmatchedRightParen(o.stacks);
      }
    }
  }

  /** The same through `operator`. */
  lemma UnmatchedRightParenStep(s: Stacks, rest: string)
    requires Ast.LeftParenthesis !in s.operators
    ensures ApplyOperator(s, Ast.RightParenthesis, rest).result == Err(Error(InvalidBinary))
  {
    UnmatchedRightParen(s);
  }

  // ---------------------------------------------------------------------
  // The shape of the operator stack

  /** The operator stack never holds `)`, and every operator on it yields to
      nothing directly above it, except to a `(`: between parentheses the
      stack is ordered by the reduction rule. */
  ghost predicate WellFormed(ops: seq<Ast.Operator>) {
    && Ast.RightParenthesis !in ops
    && forall i :: 0 <= i < |ops| - 1 && ops[i + 1] != Ast.LeftParenthesis ==> !ShouldReduce(ops[i], ops[i + 1])
  }

  lemma PrefixWellFormed(p: seq<Ast.Operator>, ops: seq<Ast.Operator>)
    requires IsPrefix(p, ops) && WellFormed(ops)
    ensures WellFormed(p)
  {
    assert forall i :: 0 <= i < |p| ==> p[i] == ops[i];
    assert forall x :: x in p ==> x in ops;
  }

  lemma PushWellFormed(ops: seq<Ast.Operator>, op: Ast.Operator)
    requires WellFormed(ops) && op != Ast.RightParenthesis
    requires op == Ast.LeftParenthesis || ops == [] || !ShouldReduce(Last(ops), op)
    ensures WellFormed(ops + [op])
  {
    var ops' := ops + [op];
    forall i | 0 <= i < |ops'| - 1 && ops'[i + 1] != Ast.LeftParenthesis
      ensures !ShouldReduce(ops'[i], ops'[i + 1])
    {
      if i < |ops| - 1 {
        assert ops'[i] == ops[i] && ops'[i + 1] == ops[i + 1];
      }
    }
  }

  /** Every operator keeps the stack well formed. */
  lemma ApplyOperatorKeeps(s: Stacks, op: Ast.Operator, rest: string)
    requires WellFormed(s.operators)
    ensures WellFormed(ApplyOperator(s, op, rest).stacks.operators)
  {
    if op != Ast.LeftParenthesis && op != Ast.RightParenthesis {
      var r := ReduceWhileHigher(s, op);
      PrefixWellFormed(r.stacks.operators, s.operators);
      if r.result.Ok? {
        PushWellFormed(r.stacks.operators, op);
      }
    } else if op == Ast.LeftParenthesis {
      PushWellFormed(s.operators, op);
    } else {
      var r := ReduceUntilParen(s);
      PrefixWellFormed(r.stacks.operators, s.operators);
      if r.result.Ok? {
        var p := r.stacks.operators;
        PrefixWellFormed(p[..|p| - 1], p);
      }
    }
  }

  /** Hence every token step keeps it well formed. */
  lemma HandleTokenKeeps(s: Stacks, input: string)
    requires WellFormed(s.operators)
    ensures WellFormed(HandleTokenStep(s, input).stacks.operators)
  {
    var w := Tokens.MaybeConsumeExtra(input).rest;
    if w != [] && Tokens.IsOperator(w[0]) {
      var t := OperatorToken(Tokens.MaybeConsumeExtra(w).rest);
      if t.Ok? {
        ApplyOperatorKeeps(s, t.value, Tokens.MaybeConsumeExtra(t.rest).rest);
      }
    }
  }

  /** And so does the whole token loop. */
  lemma {:induction false} TokenLoopKeeps(s: Stacks, input: string)
    requires WellFormed(s.operators)
    ensures WellFormed(TokenLoop(s, input).stacks.operators)
    decreases |input|
  {
    var h := HandleTokenStep(s, input);
    HandleTokenKeeps(s, input);
    if h.result.Ok? && h.result.rest != input {
      TokenLoopKeeps(h.stacks, h.result.rest);
    }
  }

  // ---------------------------------------------------------------------
  // parse

  /** Empty or blank input has no first token: `parse` fails with `Many1`. */
  lemma ParseBlank(ws: string)
    requires Tokens.AllWhitespace(ws)
    ensures ParseExpr(ws) == Err(Error(NoExpression))
  {
    Tokens.MaybeConsumeWhitespacesOf(ws, "");
    assert ws + "" == ws;
  }

  /** A first token that fails recoverably, whatever its error, is reported
      as the `Many1` error; a fatal one is passed on. */
  lemma ParseFirstToken(i: string)
    requires HandleTokenStep(Stacks([], []), i).result.Err?
    ensures var e := HandleTokenStep(Stacks([], []), i).result.err;
      ParseExpr(i) == if e.Error? then Err(Error(NoExpression)) else Err(e)
  {
  }

  /** A successful parse is the top of the output once the token loop has
      stopped and every operator left has been applied. */
  lemma ParseOk(i: string, s1: Stacks, next: string, s2: Stacks, rest: string, s3: Stacks)
    requires HandleTokenStep(Stacks([], []), i) == Outcome(s1, Ok(next, ()))
    requires TokenLoop(s1, next) == Outcome(s2, Ok(rest, ()))
    requires Drain(s2) == Outcome(s3, Ok("", ())) && s3.output != []
    ensures ParseExpr(i) == Ok(rest, Last(s3.output))
    ensures s3.operators == [] && |s2.output| - |s3.output| == |s2.operators|
  {
  }

  /** One token step that consumes input continues the loop. */
  lemma LoopStep(s: Stacks, input: string, s': Stacks, next: string)
    requires HandleTokenStep(s, input) == Outcome(s', Ok(next, ())) && next != input
    ensures TokenLoop(s, input) == TokenLoop(s', next)
  {
  }

  /** At the end of the input the loop stops with the stacks as they are. */
  lemma LoopEnd(s: Stacks)
    ensures TokenLoop(s, "") == Outcome(s, Ok("", ()))
  {
    Tokens.MaybeConsumeWhitespacesNone("");
  }

  // ---------------------------------------------------------------------
  // Operands

  /** A constant operand is pushed on the output: it cannot start a call,
      and the blanks after it are skipped. */
  lemma ConstantOperand(s: Stacks, input: string, c: Ast.Constant, ws: string, rest: string)
    requires input == Literal(c) + (ws + rest) && HasLiteral(c)
    requires Tokens.AllWhitespace(ws) && Tokens.NoLeadingWhitespace(rest) && EndsLiteral(ws + rest)
    ensures HandleTokenStep(s, input) == Outcome(Stacks(s.operators, s.output + [Ast.Const(c)]), Ok(rest, ()))
  {
    ConstantStart(input, c, ws + rest);
    ConstantIn(input, c, ws + rest);
    Tokens.MaybeConsumeWhitespacesOf(ws, rest);
    ConstantOperandAt(s, input, c, ws + rest, rest);
  }

  lemma ConstantStart(input: string, c: Ast.Constant, after: string)
    requires input == Literal(c) + after && HasLiteral(c)
    ensures input != [] && !Tokens.IsOperator(input[0]) && !Tokens.IsIdentStart(input[0])
    ensures Tokens.MaybeConsumeExtra(input).rest == input
  {
    LiteralStart(c);
    assert input[0] == Literal(c)[0];
    Tokens.MaybeConsumeWhitespacesNone(input);
  }

  lemma ConstantOperandAt(s: Stacks, input: string, c: Ast.Constant, after: string, rest: string)
    requires Tokens.MaybeConsumeExtra(input).rest == input
    requires input != [] && !Tokens.IsOperator(input[0]) && !Tokens.IsIdentStart(input[0])
    requires C.Constant(input) == Ok(after, c)
    requires Tokens.MaybeConsumeExtra(after).rest == rest
    ensures HandleTokenStep(s, input) == Outcome(Stacks(s.operators, s.output + [Ast.Const(c)]), Ok(rest, ()))
  {
  }

  /** A call without arguments is pushed on the output as a call. */
  lemma CallOperand(s: Stacks, name: string, rest: string)
    requires Tokens.IsName(name)
    ensures OperandStep(s, name + "()" + rest)
         == Outcome(Stacks(s.operators, s.output + [Ast.Call(Ast.FunctionCall(name, []))]), Ok(rest, ()))
  {
    CallProps.FunctionCallNoArgsOf(name, rest);
  }

  /** The call alternative is tried first: whenever it succeeds or fails
      fatally, its outcome is the operand's. */
  lemma OperandCallFirst(input: string)
    ensures !C.FunctionCall(input).IsRecoverable() ==> OperandParse(input) == AsCall(C.FunctionCall(input))
    ensures C.FunctionCall(input).IsRecoverable() ==> OperandParse(input) == AsConst(C.Constant(input))
  {
  }

  /** A call with arguments is pushed as a call with exactly those
      arguments, in order; its closing `)` is left in the input. */
  lemma CallArgsOperand(s: Stacks, name: string, args: seq<CallProps.Spaced>, last: CallProps.Spaced, rest: string)
    requires Tokens.IsName(name) && CallProps.AllWellSpaced(args) && CallProps.WellSpaced(last)
    ensures OperandStep(s, name + "(" + (CallProps.ArgsText(args) + (CallProps.ArgText(last) + ")" + rest)))
         == Outcome(Stacks(s.operators, s.output + [Ast.Call(C.BuildCall(name, CallProps.Values(args), last.c))]), Ok(")" + rest, ()))
  {
    CallProps.FunctionCallOf(name, args, last, rest);
  }

  /** A name not followed by `(` is not a call; the constant alternative
      then fails fatally, so the variable alternative is never tried and
      the operand is an error. */
  lemma NameOperandFails(s: Stacks, input: string, name: string, rest: string)
    requires Tokens.Identifier(input) == Ok(rest, name) && (rest == [] || rest[0] != '(')
    ensures OperandStep(s, input) == Outcome(s, Err(Failure(C.NotAValidConstant)))
  {
    CallProps.FunctionCallNoParen(input, name, rest);
    ConstantNoLiteral(input);
  }

  /** An operator token, with the blanks after it. */
  lemma OperatorOperand(s: Stacks, input: string, c: char, ws: string, rest: string)
    requires input == [c] + (ws + rest) && Tokens.IsOperator(c)
    requires Tokens.AllWhitespace(ws) && Tokens.NoLeadingWhitespace(rest)
    ensures HandleTokenStep(s, input) == ApplyOperator(s, OperatorOf(c), rest)
  {
    assert input[0] == c && input[1..] == ws + rest;
    Tokens.MaybeConsumeWhitespacesNone(input);
    Tokens.MaybeConsumeWhitespacesOf(ws, rest);
    Tokens.MaybeConsumeWhitespacesNone(rest);
    OperatorOperandAt(s, input, ws + rest, rest);
  }

  lemma OperatorOperandAt(s: Stacks, input: string, after: string, rest: string)
    requires input != [] && Tokens.IsOperator(input[0]) && input[1..] == after
    requires Tokens.MaybeConsumeExtra(input).rest == input
    requires Tokens.MaybeConsumeExtra(after).rest == rest
    requires Tokens.MaybeConsumeExtra(rest).rest == rest
    ensures HandleTokenStep(s, input) == ApplyOperator(s, OperatorOf(input[0]), rest)
  {
    OperatorStepAt(s, input, after, rest);
  }

  lemma OperatorStepAt(s: Stacks, input: string, after: string, rest: string)
    requires input != [] && Tokens.IsOperator(input[0]) && input[1..] == after
    requires Tokens.MaybeConsumeExtra(input).rest == input
    requires Tokens.MaybeConsumeExtra(after).rest == rest
    ensures OperatorStep(s, input) == ApplyOperator(s, OperatorOf(input[0]), rest)
  {
    assert OperatorToken(input) == Ok(after, OperatorOf(input[0]));
  }
}
