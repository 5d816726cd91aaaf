/**
 * The grammar constructs: recursive-descent rules that thread the remaining
 * input through the token recognizers and return `(rest, node)` or a nom
 * error. No construct leaves more input than it was given.
 */
module Constructs {
  import opened Wrappers
  import opened Nom
  import Ast
  import Tokens

  const NotAValidConstant := PError("Not a valid constant", OneOf)

  /** `'c' | "s" | digits.digits | digits`: the four recognizers are run in
      sequence, each optional; exactly one of them must match, anything else
      is a fatal failure, so an `alt` does not try further alternatives. */
  function Constant(input: string): (r: IResult<Ast.Constant>)
    ensures r.Ok? || r == Err(Failure(NotAValidConstant))
    ensures Consumes(r, input) && (r.Ok? ==> |r.rest| < |input|)
  {
    var c := Opt(Tokens.CharConstant(input), input);
    var s := Opt(Tokens.StringConstant(c.rest), c.rest);
    var f := Opt(Tokens.FloatConstant(s.rest), s.rest);
    var i := Opt(Tokens.IntConstant(f.rest), f.rest);
    match (c.value, s.value, i.value, f.value)
    case (Some(cv), None, None, None) => Ok(i.rest, Ast.CharConst(cv))
    case (None, Some(sv), None, None) => Ok(i.rest, Ast.StrConst(sv))
    case (None, None, Some(iv), None) => Ok(i.rest, Ast.IntConst(iv))
    case (None, None, None, Some(fv)) => Ok(i.rest, Ast.FloatConst(fv))
    case _ => Err(Failure(NotAValidConstant))
  }

  /** `<identifier> ( )` */
  function FunctionCallNoArgs(input: string): (r: IResult<Ast.FunctionCall>)
    ensures Consumes(r, input) && (r.Ok? ==> |r.rest| < |input|)
    ensures r.Ok? ==> r.value.args == []
  {
    var id :- Tokens.Identifier(input);
    var lp :- Tokens.LeftParenthesis(id.rest);
    var rp :- Tokens.RightParenthesis(lp.rest);
    Ok(rp.rest, Ast.FunctionCall(id.value, []))
  }

  /** One call argument, a constant, with the whitespace around it. It never
      fails recoverably: a non-constant is the constant's fatal failure. */
  function Arg(input: string): (r: IResult<Ast.Constant>)
    ensures r.Ok? || r == Err(Failure(NotAValidConstant))
    ensures r.Ok? ==> |r.rest| < |input|
  {
    var w := Tokens.MaybeConsumeWhitespaces(input);
    var c :- Constant(w.rest);
    var w' := Tokens.MaybeConsumeWhitespaces(c.rest);
    Ok(w'.rest, c.value)
  }

  /** An argument followed by a comma. */
  function ArgAndComma(input: string): (r: IResult<Ast.Constant>)
    ensures r.Ok? ==> |r.rest| < |input|
    ensures r.Ok? <==> Arg(input).Ok? && Tokens.StartsWith(Arg(input).rest, ",")
    ensures r.Ok? ==> r == Ok(Arg(input).rest[1..], Arg(input).value)
    ensures Arg(input).Ok? && !r.Ok? ==> r == Tokens.Fail(Arg(input).rest)
  {
    var a :- Arg(input);
    var comma :- Tokens.Comma(a.rest);
    Ok(comma.rest, a.value)
  }

  /** Constants as argument instructions, in order. */
  function Boxed(cs: seq<Ast.Constant>): (r: seq<Ast.Instr>)
    ensures |r| == |cs| && forall i :: 0 <= i < |cs| ==> r[i] == Ast.Const(cs[i])
  {
    seq(|cs|, i requires 0 <= i < |cs| => Ast.Const(cs[i]))
  }

  /** The call that `function_call_args` assembles: the comma-terminated
      arguments in order, then the last one. */
  function BuildCall(name: string, argVec: seq<Ast.Constant>, last: Ast.Constant): Ast.FunctionCall {
    Ast.FunctionCall(name, Boxed(argVec) + [Ast.Const(last)])
  }

  /** The in-place assembly of `function_call_args`: a fresh call receives
      each collected argument through `add_arg`, then the last one. */
  method CollectArgs(name: string, argVec: seq<Ast.Constant>, last: Ast.Constant)
    returns (call: Ast.FunctionCall)
    ensures call == BuildCall(name, argVec, last)
  {
    call := Ast.FunctionCall(name, []);
    for i := 0 to |argVec|
      invariant call == Ast.FunctionCall(name, Boxed(argVec[..i]))
    {
      call := call.AddArg(Ast.Const(argVec[i]));
    }
    assert argVec[..|argVec|] == argVec;
    call := call.AddArg(Ast.Const(last));
  }

  /** `<identifier> ( (<arg> ,)* <arg>`: at least one argument; the closing
      parenthesis is left in the input. */
  function FunctionCallArgs(input: string): (r: IResult<Ast.FunctionCall>)
    ensures Consumes(r, input) && (r.Ok? ==> |r.rest| < |input|)
    ensures r.Ok? ==> |r.value.args| >= 1
  {
    var id :- Tokens.Identifier(input);
    var lp :- Tokens.LeftParenthesis(id.rest);
    assert AlwaysConsumes(ArgAndComma);
    var args :- Many0Of(ArgAndComma, lp.rest);
    var last :- Arg(args.rest);
    Ok(last.rest, BuildCall(id.value, args.value, last.value))
  }

  /** A call: the empty-argument form first, else the argument form. */
  function FunctionCall(input: string): (r: IResult<Ast.FunctionCall>)
    ensures Consumes(r, input) && (r.Ok? ==> |r.rest| < |input|)
  {
    Alt(FunctionCallNoArgs(input), FunctionCallArgs(input))
  }

  /** `[mut] <identifier> = <constant> ;` with optional whitespace around `=`. */
  function VarAssignment(input: string): (r: IResult<Ast.VarAssign>)
    ensures r.Ok? ==> (r.value.mutable <==> Tokens.MutTok(input).Ok?)
    ensures r.Ok? ==> |r.rest| < |input|
  {
    var m := Opt(Tokens.MutTok(input), input);
    var w := Tokens.MaybeConsumeWhitespaces(m.rest);
    AssignmentBody(w.rest, m.value.Some?)
  }

  /** `<identifier> = <constant> ;`, the assignment after its `mut` keyword. */
  function AssignmentBody(input: string, mutable: bool): (r: IResult<Ast.VarAssign>)
    ensures r.Ok? ==> r.value.mutable == mutable && |r.rest| < |input|
  {
    var id :- Tokens.Identifier(input);
    var w1 := Opt(Tokens.ConsumeWhitespaces(id.rest), id.rest);
    var eq :- Tokens.Equal(w1.rest);
    var w2 := Opt(Tokens.ConsumeWhitespaces(eq.rest), eq.rest);
    var c :- Constant(w2.rest);
    var semi :- Tokens.Semicolon(c.rest);
    Ok(semi.rest, Ast.VarAssign(mutable, id.value, c.value))
  }

  /** `( )` with optional whitespace inside: no arguments. */
  function ArgsDecEmpty(input: string): (r: IResult<seq<Ast.FunctionDecArg>>)
    ensures Consumes(r, input)
    ensures r.Ok? ==> r.value == []
  {
    var lp :- Tokens.LeftParenthesis(input);
    var w := Tokens.MaybeConsumeWhitespaces(lp.rest);
    var rp :- Tokens.RightParenthesis(w.rest);
    Ok(rp.rest, [])
  }

  /** `<identifier> : <identifier>`, whitespace allowed around the colon. */
  function IdentifierType(input: string): (r: IResult<Ast.FunctionDecArg>)
    ensures Consumes(r, input)
    ensures r.Ok? ==> |r.rest| < |input|
  {
    var id :- Tokens.Identifier(input);
    var w := Tokens.MaybeConsumeWhitespaces(id.rest);
    var colon :- Tokens.Colon(w.rest);
    var w' := Tokens.MaybeConsumeWhitespaces(colon.rest);
    var ty :- Tokens.Identifier(w'.rest);
    Ok(ty.rest, Ast.FunctionDecArg(id.value, ty.value))
  }

  /** A typed argument followed by a comma, whitespace allowed around it. */
  function IdentifierTypeComma(input: string): (r: IResult<Ast.FunctionDecArg>)
    ensures r.Ok? ==> |r.rest| < |input|
  {
    var w := Tokens.MaybeConsumeWhitespaces(input);
    var arg :- IdentifierType(w.rest);
    var w' := Tokens.MaybeConsumeWhitespaces(arg.rest);
    var comma :- Tokens.Comma(w'.rest);
    Ok(comma.rest, arg.value)
  }

  /** `( (<id> : <id> ,)* <id> : <id> )`: the last typed argument has no
      comma and is directly followed by the closing parenthesis. */
  function ArgsDecNonEmpty(input: string): (r: IResult<seq<Ast.FunctionDecArg>>)
    ensures Consumes(r, input)
    ensures r.Ok? ==> |r.value| >= 1
  {
    var lp :- Tokens.LeftParenthesis(input);
    var w := Tokens.MaybeConsumeWhitespaces(lp.rest);
    assert AlwaysConsumes(IdentifierTypeComma);
    var args :- Many0Of(IdentifierTypeComma, w.rest);
    var w' := Tokens.MaybeConsumeWhitespaces(args.rest);
    var last :- IdentifierType(w'.rest);
    var rp :- Tokens.RightParenthesis(last.rest);
    Ok(rp.rest, args.value + [last.value])
  }

  /** A possibly empty list of argument declarations. */
  function ArgsDec(input: string): (r: IResult<seq<Ast.FunctionDecArg>>)
    ensures Consumes(r, input)
  {
    Alt(ArgsDecEmpty(input), ArgsDecNonEmpty(input))
  }

  /** No return type: whitespace and no arrow. An arrow here is a recoverable
      error carrying the input after it. */
  function ReturnTypeVoid(input: string): (r: IResult<Option<string>>)
    ensures Consumes(r, input)
    ensures r.Ok? ==> r.value == None
  {
    var w := Tokens.MaybeConsumeWhitespaces(input);
    var arrow := Opt(Tokens.Arrow(w.rest), w.rest);
    match arrow.value
    case Some(_) => Err(Error(PError(arrow.rest, OneOf)))
    case None => Ok(arrow.rest, None)
  }

  /** `-> <identifier>`, whitespace allowed before and after the arrow. */
  function ReturnTypeNonVoid(input: string): (r: IResult<Option<string>>)
    ensures Consumes(r, input)
    ensures r.Ok? ==> r.value.Some?
  {
    var w := Tokens.MaybeConsumeWhitespaces(input);
    var arrow :- Tokens.Arrow(w.rest);
    var w' := Tokens.MaybeConsumeWhitespaces(arrow.rest);
    var ty :- Tokens.Identifier(w'.rest);
    Ok(ty.rest, Some(ty.value))
  }

  /** The return type of a declaration: `-> type`, or void. */
  function ReturnType(input: string): (r: IResult<Option<string>>)
    ensures Consumes(r, input)
    ensures r.Ok? ==> (r.value.Some? <==> ReturnTypeNonVoid(input).Ok?)
    ensures ReturnTypeNonVoid(input).Ok? ==> r == ReturnTypeNonVoid(input)
  {
    Alt(ReturnTypeNonVoid(input), ReturnTypeVoid(input))
  }
}
