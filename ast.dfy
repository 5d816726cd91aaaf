/**
 * The instruction (AST node) kinds the front end builds, as one closed sum
 * type, together with the operators of binary expressions and the runtime
 * values instructions evaluate to.
 */
module Ast {
  import opened Wrappers

  /** The four literal kinds, `ConstKind`. */
  datatype ConstKind = Char | Str | Int | Float

  /** A literal constant. A float keeps only its source lexeme: floating-point
      values are not part of this model. Integers are the non-negative
      decimal literals the lexer recognizes. */
  datatype Constant =
    | CharConst(c: char)
    | StrConst(s: string)
    | IntConst(i: nat)
    | FloatConst(lexeme: string)
  {
    function Kind(): ConstKind {
      match this
      case CharConst(_) => Char
      case StrConst(_) => Str
      case IntConst(_) => Int
      case FloatConst(_) => Float
    }
  }

  /** Binary operators and the two parentheses, which the expression parser
      keeps on the same stack. */
  datatype Operator = Add | Sub | Mul | Div | LeftParenthesis | RightParenthesis {

    /** The ranking the expression parser compares. Only the order matters:
        multiplication and division above addition and subtraction, and the
        parentheses below every arithmetic operator. */
    function Precedence(): nat {
      match this
      case Mul | Div => 2
      case Add | Sub => 1
      case LeftParenthesis | RightParenthesis => 0
    }

    /** Every operator of the grammar is left-associative. */
    predicate IsLeftAssociative() {
      true
    }
  }

  /** A call `name(args)`; arguments are kept in source order. */
  datatype FunctionCall = FunctionCall(name: string, args: seq<Instr>) {

    /** `FunctionCall::add_arg`: append one argument. */
    function AddArg(arg: Instr): FunctionCall {
      this.(args := args + [arg])
    }
  }

  /** The expression-position instructions. */
  datatype Instr =
    | Const(c: Constant)
    | Var(name: string)
    | Call(call: FunctionCall)
    | BinOp(lhs: Instr, rhs: Instr, op: Operator)

  /** `[mut] name = value;` */
  datatype VarAssign = VarAssign(mutable: bool, symbol: string, value: Constant)

  /** One `name: type` entry of a function declaration's argument list. */
  datatype FunctionDecArg = FunctionDecArg(name: string, ty: string)

  /** Runtime values (`ObjectInstance`), as far as the builtins inspect them. */
  datatype Instance = IntInstance(i: int) | StrInstance(s: string) | OtherInstance(typeName: string)

  /** `InstrKind`: a statement, or an expression with its value if known. */
  datatype InstrKind = Statement | Expression(value: Option<Instance>)
}
