# A verified model of jinko's front end

jinko is a small interpreted language written in Rust. This project models
the parts of its front end and interpreter core that decide what a program
means before anything runs:

- the **shunting-yard expression parser**, which reads an infix expression
  token by token with an operator stack and an output stack and builds a tree
  of binary operations (`ShuntingYardParser`, with the properties in
  `ShuntingYardProps`, a token-level reference in `ShuntingYardTokens` and the
  parser's test cases in `ShuntingYardExamples`);
- the **grammar constructs**, nom-style recursive-descent rules for constants,
  function calls, variable assignments, argument declarations and return
  types (`Constructs`, on top of the nom combinators in `Nom` and simple
  token recognizers in `Tokens`; properties in `ConstantProps`, `CallProps`,
  `AssignProps` and `DeclProps`);
- **type instantiation** `Name(field, ...)`: its field list, the type lookup,
  the field-count check, its rendering and the order of its errors
  (`TypeInstantiations`);
- **type identifiers**: the five primitive type names and the namespace
  prefix that skips them (`TypeIds`);
- the **builtin table** and its four string builtins (`Builtins`);
- the **error builder**: kind, message and location, the label and the exit
  status each kind maps to (`Errors`).

The shunting-yard parser, the type instantiation, the type identifier and the
builtin table change state in place in the Rust code; they are Dafny classes
whose methods update `seq`/`map` fields and are proved to compute a
function of the old state (`ensures Outcome(State(), r) ==
OperatorStep(old(State()), input)` and so on). The properties are then proved
about those functions. The grammar constructs and the error builder are pure
and are Dafny functions.

Parser results follow nom: `Ok(rest, value)`, a recoverable `Error` that lets
`alt`/`opt`/`many0` try something else, or a fatal `Failure` that stops them.

Some behaviour of the code as written that the model states rather than
corrects:

- `parse` does not check that exactly one output node remains: `1 2` parses
  to `2` (`ShuntingYardExamples.ParseExampleTwoOperands`).
- A `)` without a matching `(` is rejected by the reduction error
  ("Invalid binary expression", recoverable, `OneOf`), never by the
  "Unclosed right parenthesis" arm at `src/parser/shunting_yard.rs:91-98`:
  the loop before it only ends with `(` on top or with an error.
- Because `constant` never fails recoverably, the `variable` alternative of
  `operand` is never reached: a bare name is the fatal "Not a valid
  constant" (`ShuntingYardProps.NameOperandFails`).
- The argument form of `function_call` leaves the closing `)` in the input
  (`CallProps.FunctionCallOf`, `CallProps.FunctionCallExampleOne`). As an
  operand this makes a call with arguments unparseable as an expression: the
  `)` left behind is read as an operator, finds no `(`, and its reduction
  pops the call node, so `fn(2)` is "Invalid binary expression"
  (`ShuntingYardProps.CallArgsOperand`,
  `ShuntingYardExamples.ParseExampleCallWithArgs`).
- The two ignored tests at `src/parser/shunting_yard.rs:307-317` are stated
  as what the code gives: in `4 + 2 * 3` the left operand of the sum is `4`.
- `reduce_output` takes the node popped first as the right operand and the
  next as the left one, so `(3 + 1) * 2` builds `(3 + 1)`, not the
  `BinaryOp(1, 3, ..)` of the test's reference value; the tests compare only
  the root operator, while the example lemmas here state the whole tree.

## Model

| member | source | states |
|---|---|---|
| ShuntingYardParser.Reduce | src/parser/shunting_yard.rs:20-56 | succeeds iff there are two output nodes and an operator; then exactly one `BinOp(lhs, rhs, op)` replaces the two top nodes, lhs the lower one, with the top operator removed and everything below unchanged; otherwise the recoverable `OneOf` "Invalid binary expression", with the operands already popped gone and the operators untouched |
| ShuntingYardParser.ShuntingYard.ReduceOutput | src/parser/shunting_yard.rs:20-56 | the in-place pops and push leave the stacks and the result that `Reduce` gives |
| ShuntingYardParser.ReduceWhileHigher | src/parser/shunting_yard.rs:75-83 | leaves a prefix of the operator stack whose top no longer yields to the incoming operator (strictly higher precedence, or equal and left-associative), one output node fewer per operator removed; errors only with the reduction error |
| ShuntingYardParser.ShuntingYard.ReduceHigher | src/parser/shunting_yard.rs:76-82 | the `while` loop computes `ReduceWhileHigher` |
| ShuntingYardParser.ReduceUntilParen | src/parser/shunting_yard.rs:86-89 | on success `(` is on top, it is the nearest `(` (no operator removed was one), and one output node went per operator removed |
| ShuntingYardParser.ShuntingYard.ReduceToParen | src/parser/shunting_yard.rs:87-89 | the `while` loop computes `ReduceUntilParen` |
| ShuntingYardParser.OperatorToken | src/parser/shunting_yard.rs:61-68 | succeeds iff the input starts with one of `+ - * / ( )`, consuming that character and giving its operator; otherwise the recognizer's recoverable error |
| ShuntingYardParser.ShuntingYard.Operator | src/parser/shunting_yard.rs:58-103 | the method computes `OperatorStep` on the old stacks |
| ShuntingYardParser.ApplyOperator | src/parser/shunting_yard.rs:72-102 | a success returns the input after the operator; the only error is the reduction error |
| ShuntingYardParser.OperatorStep | src/parser/shunting_yard.rs:58-72 | blanks are skipped, then one operator token is read; a success consumes input; an error is either the reduction error or a recoverable error that leaves the stacks unchanged, and the latter happens only when no operator character follows the blanks |
| ShuntingYardParser.Variable | src/parser/shunting_yard.rs:109 | succeeds exactly when an identifier is read, giving a variable node of that name and the input after it |
| ShuntingYardParser.OperandParse | src/parser/shunting_yard.rs:106-110 | a success consumes input and is a call or a constant node, never a variable node |
| ShuntingYardParser.OperandStep | src/parser/shunting_yard.rs:105-115 | succeeds exactly when `OperandParse` does; then exactly the parsed node is pushed on the output and the input after it is returned; the operator stack is never touched, and an error leaves both stacks unchanged and passes the parse error on |
| ShuntingYardParser.ShuntingYard.Operand | src/parser/shunting_yard.rs:105-115 | the method pushes what `OperandStep` pushes |
| ShuntingYardParser.HandleTokenStep | src/parser/shunting_yard.rs:117-136 | a success consumes input |
| ShuntingYardParser.ShuntingYard.HandleToken | src/parser/shunting_yard.rs:117-136 | the method computes `HandleTokenStep` |
| ShuntingYardParser.TokenLoop | src/parser/shunting_yard.rs:164-177 | the loop ends (it is well founded on the input length) and leaves a suffix length of the input |
| ShuntingYardParser.ShuntingYard.HandleTokens | src/parser/shunting_yard.rs:164-177 | the `loop` with its two `break`s computes `TokenLoop` |
| ShuntingYardParser.Drain | src/parser/shunting_yard.rs:181-184 | on success the operator stack is empty and one output node went per operator; otherwise the reduction error |
| ShuntingYardParser.ShuntingYard.ReduceAll | src/parser/shunting_yard.rs:182-184 | the `while` loop computes `Drain` |
| ShuntingYardParser.ParseExpr | src/parser/shunting_yard.rs:148-193 | a successful parse consumes input |
| ShuntingYardParser.ParseRest | src/parser/shunting_yard.rs:161-192 | after the first token: the token loop, the drain and the final pop; a success leaves no more input than it was given |
| ShuntingYardParser.AfterLoop | src/parser/shunting_yard.rs:172-192 | a loop error is passed on; otherwise the drain's error, the "Invalid binary expression" error for an empty output, or the top output node with exactly the input the loop left |
| ShuntingYardParser.ShuntingYard.Parse | src/parser/shunting_yard.rs:148-193 | a fresh parser and the first token, then `Finish`, compute `ParseExpr` |
| ShuntingYardParser.ShuntingYard.Finish | src/parser/shunting_yard.rs:161-192 | the token loop, the draining loop and the final pop compute `ParseRest` of the old stacks |
| ShuntingYardParser.ShuntingYard.DrainAndPop | src/parser/shunting_yard.rs:172-192 | the draining loop and the pop compute `AfterLoop` of the stacks and the loop's result |
| ShuntingYardParser.ShuntingYard.constructor | src/parser/shunting_yard.rs:139-144 | both stacks start empty |
| ShuntingYardProps.ArithmeticOnTop | src/parser/shunting_yard.rs:75-83 | after an arithmetic operator the operator stack is a prefix of the old one with the operator on top, and the operator below it does not reduce before it |
| ShuntingYardProps.ApplyOperatorRest | src/parser/shunting_yard.rs:72-102 | what an operator does to the stacks does not depend on the text after it |
| ShuntingYardProps.LeftParenPushed | src/parser/shunting_yard.rs:84-85 | `(` is pushed with no reduction and the output unchanged |
| ShuntingYardProps.RightParenMatched | src/parser/shunting_yard.rs:86-99 | a successful `)` removes the operators above the nearest `(` and that `(`, and pushes nothing; the output shrinks by the number of operators reduced |
| ShuntingYardProps.UnmatchedRightParen | src/parser/shunting_yard.rs:23-51 | with no `(` on the stack, reducing toward `(` ends in the reduction error |
| ShuntingYardProps.UnmatchedRightParenStep | src/parser/shunting_yard.rs:86-99 | a `)` with no `(` on the stack fails with "Invalid binary expression", never with "Unclosed right parenthesis" |
| ShuntingYardProps.ApplyOperatorKeeps | src/parser/shunting_yard.rs:72-100 | invariant: the operator stack never holds `)`, and no operator sits directly below one it would have reduced before being pushed; every operator step keeps this |
| ShuntingYardProps.HandleTokenKeeps | src/parser/shunting_yard.rs:117-136 | every token step keeps the operator-stack invariant |
| ShuntingYardProps.TokenLoopKeeps | src/parser/shunting_yard.rs:164-177 | the whole token loop keeps the operator-stack invariant |
| ShuntingYardProps.ParseBlank | src/parser/shunting_yard.rs:153-159 | empty or whitespace-only input is the `Many1` "Not a valid binary expression" error |
| ShuntingYardProps.ParseFirstToken | src/parser/shunting_yard.rs:153-160 | a recoverable error on the first token becomes the `Many1` error; a failure is passed on |
| ShuntingYardProps.ParseOk | src/parser/shunting_yard.rs:148-193 | when the first token, the loop and the drain succeed, the result is the top output node and the operator stack is empty |
| ShuntingYardProps.LoopStep | src/parser/shunting_yard.rs:164-177 | a token step that succeeds and consumes input continues the loop from the new stacks and the remaining input |
| ShuntingYardProps.LoopEnd | src/parser/shunting_yard.rs:165-167 | the token loop stops at the end of the input with the stacks as they are |
| ShuntingYardProps.ConstantOperand | src/parser/shunting_yard.rs:105-115 | a constant token is pushed on the output as a constant node, the operators unchanged |
| ShuntingYardProps.CallOperand | src/parser/shunting_yard.rs:105-112 | `name()` is tried first and pushed as a call with no arguments |
| ShuntingYardProps.OperandCallFirst | src/parser/shunting_yard.rs:106-110 | the call alternative answers whenever it succeeds or fails fatally; otherwise the constant alternative answers |
| ShuntingYardProps.CallArgsOperand | src/parser/shunting_yard.rs:105-115 | a call with arguments is pushed as a call with exactly those arguments in order, the operators untouched, and its closing `)` is left in the input |
| ShuntingYardProps.NameOperandFails | src/parser/shunting_yard.rs:106-110 | a bare name never reaches the variable alternative: the constant's fatal failure ends the operand |
| ShuntingYardProps.OperatorOperand | src/parser/shunting_yard.rs:117-135 | a token starting with an operator character is an operator step |
| ShuntingYardTokens.Symbol | src/parser/shunting_yard.rs:61-68 | every operator has a character the operator recognizer maps back to it |
| ShuntingYardTokens.Step | src/parser/shunting_yard.rs:20-115 | the textbook step on one token fails only for an operator, with the reduction error |
| ShuntingYardTokens.Run | src/parser/shunting_yard.rs:164-177 | the textbook loop over tokens never fails: a failing token only stops it |
| ShuntingYardTokens.HandleTokenRender | src/parser/shunting_yard.rs:117-136 | on written-out tokens, one character-level token step does to the stacks what the textbook step does to the first token and leaves exactly the text of the remaining tokens |
| ShuntingYardTokens.TokenLoopRender | src/parser/shunting_yard.rs:164-177 | on written-out tokens the character-level token loop is the textbook loop over the tokens |
| ShuntingYardTokens.ParseRender | src/parser/shunting_yard.rs:148-193 | `parse` on written-out tokens equals the textbook algorithm on the tokens |
| ShuntingYardExamples.ParseExampleAdd | src/parser/shunting_yard.rs:201-212 | `1 + 2` is `BinOp(1, 2, Add)` with nothing left |
| ShuntingYardExamples.ParseExampleMul | src/parser/shunting_yard.rs:214-225 | `1 * 2` is `BinOp(1, 2, Mul)` |
| ShuntingYardExamples.ParseExampleNormalPriority | src/parser/shunting_yard.rs:227-239 | `1 * 2 + 3` is `(1 * 2) + 3` |
| ShuntingYardExamples.ParseExampleBackPriority | src/parser/shunting_yard.rs:241-253 | `3 + 1 * 2` is `3 + (1 * 2)`, root Add |
| ShuntingYardExamples.ParseExampleParentheses | src/parser/shunting_yard.rs:255-267 | `(3 + 1) * 2` is `(3 + 1) * 2`, root Mul |
| ShuntingYardExamples.ParseExampleParenthesesReverse | src/parser/shunting_yard.rs:269-281 | `2 * (3 + 1)` is `2 * (3 + 1)`, root Mul |
| ShuntingYardExamples.ParseExampleNaturalOrder | src/parser/shunting_yard.rs:300-303 | `4 + 7 + 3` groups to the left: its lhs is `4 + 7`, worth 11 |
| ShuntingYardExamples.ParseExampleMulPriority | src/parser/shunting_yard.rs:307-311 | `4 + 2 * 3` is `4 + (2 * 3)`, so its lhs is `4`, not the 6 the ignored test expects |
| ShuntingYardExamples.ParseExampleMulNaturalPriority | src/parser/shunting_yard.rs:313-317 | `2 * 3 + 4` is `(2 * 3) + 4`, lhs worth 6 |
| ShuntingYardExamples.ParseExampleMissingOperand | src/parser/shunting_yard.rs:182-184 | `1 +` fails with the reduction error while draining |
| ShuntingYardExamples.ParseExampleTwoOperands | src/parser/shunting_yard.rs:186-187 | `1 2` is accepted as `2`: no check that one node remains |
| ShuntingYardExamples.ParseExampleUnmatchedParen | src/parser/shunting_yard.rs:86-99 | `1 + 2 )` fails with the reduction error |
| ShuntingYardExamples.ParseExampleLeadingParen | src/parser/shunting_yard.rs:153-159 | a lone `)` is the `Many1` error |
| ShuntingYardExamples.ParseExampleCallWithArgs | src/parser/shunting_yard.rs:105-193 | `fn(2)` is "Invalid binary expression": the `)` the call leaves is an operator whose reduction pops the call node |
| Nom.Opt | src/parser/constructs.rs:31-34 | a recoverable error becomes `None` with nothing consumed, a success `Some` with its rest, a failure is passed on |
| Nom.Many0Of | src/parser/constructs.rs:89 | stops at the first recoverable error, leaving input the parser refuses; passes a failure on; refuses a step that consumes nothing |
| Nom.Many0Nil | src/parser/constructs.rs:89 | `many0` collects nothing at a recoverable error |
| Nom.Many0Cons | src/parser/constructs.rs:89 | a consuming success is kept in front of what the rest collects |
| Constructs.Constant | src/parser/constructs.rs:30-48 | succeeds, consuming input, or fails with the fatal `OneOf` "Not a valid constant"; never recoverably |
| ConstantProps.ConstantRoundTrip | src/parser/constructs.rs:30-48 | every char, string, int or float literal followed by text that cannot extend it reads back as that constant, of its kind, leaving exactly that text |
| ConstantProps.ConstantAmbiguous | src/parser/constructs.rs:36-46 | a char literal directly followed by an integer matches two recognizers and is the fatal failure |
| ConstantProps.IntIsNoFloat | src/parser/constructs.rs:33-34 | the float recognizer refuses a plain integer, so an integer is read as Int only |
| ConstantProps.ConstantNoLiteral | src/parser/constructs.rs:43-46 | text that starts no literal is the fatal failure |
| ConstantProps.ConstantExampleInt | src/parser/constructs.rs:286 | `12` is Int 12 |
| ConstantProps.ConstantExampleFloat | src/parser/constructs.rs:287-290 | `12.2` is a Float |
| ConstantProps.ConstantExampleChar | src/parser/constructs.rs:291-294 | `'a'` is Char `a` |
| ConstantProps.ConstantExampleStr | src/parser/constructs.rs:295-298 | `"a"` is Str `a` |
| Constructs.FunctionCallNoArgs | src/parser/constructs.rs:53-59 | a success consumes input and has no arguments |
| CallProps.FunctionCallNoArgsOf | src/parser/constructs.rs:111-116 | `name()` followed by anything is the call `name` with no arguments, tried before the argument form |
| Constructs.Arg | src/parser/constructs.rs:64-73 | succeeds consuming input, or is the constant's fatal failure |
| CallProps.ArgIn | src/parser/constructs.rs:64-73 | whitespace, a literal and whitespace read as that constant with the whitespace on both sides consumed |
| Constructs.ArgAndComma | src/parser/constructs.rs:74-79 | succeeds exactly when an argument is read and a `,` follows it; then the argument's constant with the input after the comma; an argument without a comma is the recoverable tag error at the text after the argument |
| CallProps.ArgAndCommaIn | src/parser/constructs.rs:74-79 | an argument followed by `,` reads as that constant with the comma consumed |
| CallProps.ArgAndCommaFails | src/parser/constructs.rs:74-79 | an argument not followed by `,` is a recoverable error, which ends `many0` |
| CallProps.Many0ArgsOf | src/parser/constructs.rs:89 | `many0(arg_and_comma)` collects every comma-terminated argument in source order and stops before the last one |
| Constructs.CollectArgs | src/parser/constructs.rs:86-96 | the `add_arg` loop yields the comma-terminated arguments in order followed by the last one |
| Constructs.FunctionCallArgs | src/parser/constructs.rs:82-99 | a success has at least one argument and consumes input |
| Constructs.FunctionCall | src/parser/constructs.rs:111-116 | a success consumes input |
| CallProps.FunctionCallOf | src/parser/constructs.rs:82-99 | k comma-terminated arguments and a last one give a call with those k+1 constants in order, leaving the closing `)` in the input |
| CallProps.FunctionCallNoParen | src/parser/constructs.rs:111-116 | a name not followed by `(` is a recoverable error |
| CallProps.FunctionCallBadArg | src/parser/constructs.rs:82-99 | after `name(`, text that is neither `)` nor a literal is the constant's fatal failure |
| CallProps.FunctionCallExampleNoArgs | src/parser/constructs.rs:388-391 | `fn()` is `fn` with no arguments |
| CallProps.FunctionCallExampleOne | src/parser/constructs.rs:395-396 | `fn(2)` is `fn` with one argument, leaving `)` |
| CallProps.FunctionCallExampleThree | src/parser/constructs.rs:398-409 | `fn(1, 2, 3)` is `fn` with three arguments |
| CallProps.FunctionCallExampleSpaced | src/parser/constructs.rs:411-422 | `fn(1   , 2,3)` is `fn` with three arguments |
| CallProps.FunctionCallExampleUnterminated | src/parser/constructs.rs:429-432 | `fn(` is the fatal failure |
| CallProps.FunctionCallExampleWrongClose | src/parser/constructs.rs:433-436 | `fn))` is a recoverable error |
| CallProps.FunctionCallExampleWrongOpen | src/parser/constructs.rs:437-449 | `fn((` is the fatal failure |
| Constructs.VarAssignment | src/parser/constructs.rs:147-163 | a success is mutable iff the `mut` keyword matched, and consumes input |
| Constructs.AssignmentBody | src/parser/constructs.rs:152-162 | a success carries the mutability it was given and consumes input |
| AssignProps.VarAssignmentRoundTrip | src/parser/constructs.rs:147-163 | `[mut] name = literal;` with any whitespace around `=` reads back as that assignment, leaving what follows |
| AssignProps.VarAssignmentNeedsSemicolon | src/parser/constructs.rs:157 | without `;` after the value the assignment fails |
| AssignProps.NotMutKeyword | src/parser/constructs.rs:149 | a name other than `mut` is not taken for the keyword, whatever it starts with |
| AssignProps.VarAssignmentTwoWords | src/parser/constructs.rs:152-154 | two words before `=` fail: the name ends at the blank and `=` is missing |
| AssignProps.VarAssignmentExampleImmutable | src/parser/constructs.rs:303-310 | `x = 12;` is immutable `x` |
| AssignProps.VarAssignmentExampleMutable | src/parser/constructs.rs:312-325 | `mut x_99 = 129;` is mutable `x_99` |
| AssignProps.VarAssignmentExampleMutName | src/parser/constructs.rs:327-340 | `mut_x_99 = 129;` is immutable `mut_x_99` |
| AssignProps.VarAssignmentExampleMutMutName | src/parser/constructs.rs:342-355 | `mut mut_x_99 = 129;` is mutable `mut_x_99` |
| AssignProps.VarAssignmentExamplesTight | src/parser/constructs.rs:357-368 | `=` may touch the name or the value |
| AssignProps.VarAssignmentExampleTwoWords | src/parser/constructs.rs:373-376 | `mutable x = 12` fails |
| AssignProps.VarAssignmentExamplesUnterminated | src/parser/constructs.rs:377-384 | `mut x = 12` and `mut_x = 12` fail |
| Constructs.ArgsDecEmpty | src/parser/constructs.rs:170-176 | a success is the empty list |
| DeclProps.ArgsDecEmptyOf | src/parser/constructs.rs:170-176 | `(`, whitespace, `)` is the empty list, leaving what follows |
| Constructs.IdentifierType | src/parser/constructs.rs:181-189 | a success consumes input |
| DeclProps.IdentifierTypeRoundTrip | src/parser/constructs.rs:181-189 | `name : type` with any whitespace around the colon reads back as that name and type |
| DeclProps.IdentifierTypeNoColon | src/parser/constructs.rs:182-184 | a name not followed by `:` is a recoverable error |
| Constructs.IdentifierTypeComma | src/parser/constructs.rs:191-198 | a success consumes input |
| DeclProps.IdentifierTypeCommaIn | src/parser/constructs.rs:191-198 | a typed argument followed by `,` reads back, the comma consumed |
| DeclProps.IdentifierTypeCommaStops | src/parser/constructs.rs:191-198 | before `)` it is a recoverable error, which ends `many0` |
| DeclProps.Many0DeclsOf | src/parser/constructs.rs:204 | `many0` collects every comma-terminated declaration in order |
| Constructs.ArgsDecNonEmpty | src/parser/constructs.rs:200-214 | a success has at least one declaration |
| Constructs.ArgsDec | src/parser/constructs.rs:217-219 | never leaves more input than it was given |
| DeclProps.ArgsDecRoundTrip | src/parser/constructs.rs:200-219 | `(` k comma-terminated declarations and a last one `)` read back as those k+1 declarations in order |
| DeclProps.ArgsDecEmptyFails | src/parser/constructs.rs:170-176 | with a declaration inside the parentheses the empty form fails recoverably, so the non-empty form is tried |
| Constructs.ReturnTypeVoid | src/parser/constructs.rs:221-229 | a success is `None` |
| Constructs.ReturnTypeNonVoid | src/parser/constructs.rs:232-239 | a success is `Some` |
| Constructs.ReturnType | src/parser/constructs.rs:242-244 | whenever the arrow form succeeds it is the answer; a success is `Some` exactly when the arrow form succeeded, never leaving more input than it was given |
| DeclProps.ReturnTypeRoundTrip | src/parser/constructs.rs:232-244 | `-> type` with any whitespace gives `Some(type)`, leaving what follows |
| DeclProps.ReturnTypeVoidOf | src/parser/constructs.rs:221-244 | without an arrow the result is `None`, consuming only the leading whitespace |
| DeclProps.ReturnTypeArrowAlone | src/parser/constructs.rs:221-244 | an arrow without a type after it is the recoverable `OneOf` error carrying the text after the arrow |
| DeclProps.IdentifierTypeExamples | src/parser/constructs.rs:453-474 | `name: type` and `name     :type` are name `name`, type `type` |
| DeclProps.ArgsDecExampleEmpty | src/parser/constructs.rs:477-479 | `()` has no declarations |
| DeclProps.ArgsDecExampleOne | src/parser/constructs.rs:482-484 | `(name :type)` has one |
| DeclProps.ArgsDecExampleTwo | src/parser/constructs.rs:487-489 | `(name :type, name1      : type1)` has two, in order |
| DeclProps.ReturnTypeVoidExamples | src/parser/constructs.rs:492-496 | `""`, `"    "` and `"        { 12 }"` give `None`, leaving `""`, `""` and `"{ 12 }"` |
| DeclProps.ReturnTypeNonVoidExamples | src/parser/constructs.rs:499-502 | `-> int` and `   ->    int   {` give `Some("int")`, leaving `""` and `"{"` |
| TypeInstantiations.TypeInstantiation.constructor | src/instruction/type_instantiation.rs:17-22 | the name as given and no fields |
| TypeInstantiations.TypeInstantiation.Name | src/instruction/type_instantiation.rs:30-32 | the stored type name, unchanged by `AddField` |
| TypeInstantiations.TypeInstantiation.Fields | src/instruction/type_instantiation.rs:35-37 | the fields in the order `AddField` appended them |
| TypeInstantiations.TypeInstantiation.AddField | src/instruction/type_instantiation.rs:25-27 | the field is appended after the others; the name is unchanged |
| TypeInstantiations.TypeInstantiation.GetDeclaration | src/instruction/type_instantiation.rs:40-52 | the declaration iff the name is registered; otherwise the Interpreter error "Cannot find type <name>" |
| TypeInstantiations.TypeInstantiation.CheckFieldsCount | src/instruction/type_instantiation.rs:55-72 | Ok iff there are as many fields as declared; otherwise the Interpreter error giving the declared count as expected and the field count as got |
| TypeInstantiations.TypeInstantiation.Kind | src/instruction/type_instantiation.rs:76-79 | always an expression without a value |
| TypeInstantiations.TypeInstantiation.Execute | src/instruction/type_instantiation.rs:97-112 | always an error: the lookup error if the type is missing, else the count error if the count is wrong, else "not yet available" |
| TypeInstantiations.ExecuteNeverSucceeds | src/instruction/type_instantiation.rs:97-112 | no table makes execution succeed, and its error is of kind Interpreter |
| TypeInstantiations.TypeInstantiation.Print | src/instruction/type_instantiation.rs:81-95 | the loop with its first-field flag writes the name, `(`, the rendered fields joined by `, `, and `)` |
| TypeInstantiations.JoinCons | src/instruction/type_instantiation.rs:86-92 | the separator goes between the first field and the rest |
| TypeInstantiations.JoinLength | src/instruction/type_instantiation.rs:86-92 | a join is every field and one separator fewer than fields |
| TypeInstantiations.RenderingNoFields | src/instruction/type_instantiation.rs:81-95 | no fields render as `name()` |
| TypeInstantiations.RenderingOneField | src/instruction/type_instantiation.rs:81-95 | one field renders without a separator |
| TypeInstantiations.RenderingFrame | src/instruction/type_instantiation.rs:81-95 | the rendering opens with the name and `(` and closes with `)` |
| TypeIds.PrimitiveNames | src/instruction/type_id.rs:6 | exactly bool, int, float, char and string are primitive |
| TypeIds.TypeId.IsPrimitive | src/instruction/type_id.rs:22-24 | true iff the id is one of the five primitive names |
| TypeIds.TypeId.constructor | src/instruction/type_id.rs:14-16 | the id is stored as given |
| TypeIds.TypeId.Id | src/instruction/type_id.rs:18-20 | the stored id, which the constructor sets and `Prefix` rewrites |
| TypeIds.TypeId.FromStr | src/instruction/type_id.rs:37-41 | a new identifier holding the string as given |
| TypeIds.TypeId.Prefix | src/instruction/type_id.rs:28-34 | the new id is the old one prefixed, unless it is primitive |
| TypeIds.PrefixKeepsPrimitive | src/instruction/type_id.rs:28-31 | a primitive id is never prefixed |
| TypeIds.PrefixNonPrimitive | src/instruction/type_id.rs:32 | any other id becomes the prefix followed by the id |
| TypeIds.PrefixEndsWithId | src/instruction/type_id.rs:28-34 | the old id is always a suffix of the new one |
| TypeIds.PrefixEmpty | src/instruction/type_id.rs:32 | the empty prefix changes nothing |
| TypeIds.PrefixCompose | src/instruction/type_id.rs:28-34 | two prefixes in turn act as their concatenation, the later outermost, unless the first step spells a primitive name |
| TypeIds.PrefixCanSpellPrimitive | src/instruction/type_id.rs:28-34 | that exception is real: `b` before `ool` spells `bool`, which a later prefix leaves alone |
| Builtins.Builtins.constructor | src/builtins.rs:56-67 | `new` holds the default table |
| Builtins.DefaultTableContents | src/builtins.rs:56-67 | the default table has exactly the four names `__builtin_string_len`, `..._concat`, `..._display` and `..._display_err`, each with its own function |
| Builtins.Builtins.Add | src/builtins.rs:51-53 | inserts or overwrites the one name |
| Builtins.InsertKeepsOthers | src/builtins.rs:51-53 | every other name keeps its entry |
| Builtins.Builtins.Contains | src/builtins.rs:69-71 | true exactly when the name is a key of the table; `Get` is `Some` exactly then |
| Builtins.Builtins.Get | src/builtins.rs:69-75 | `Some` of the registered function iff `contains` holds |
| Builtins.Call | src/builtins.rs:19-48 | only the display builtins return no value; only display writes to standard output and only display_err to standard error; a call with no argument panics |
| Builtins.StringArg | src/builtins.rs:20-21 | an argument yields a string iff it exists and evaluates to a string value, in the context evaluation leaves |
| Builtins.CallStringLen | src/builtins.rs:19-24 | `string_len` returns its argument's byte length as an int |
| Builtins.Utf8LenBounds | src/builtins.rs:23 | the byte length lies between one and four bytes per character |
| Builtins.Utf8LenAscii | src/builtins.rs:23 | an ASCII string has one byte per character |
| Builtins.Utf8LenConcat | src/builtins.rs:23 | byte lengths add up under concatenation |
| Builtins.CallStringConcat | src/builtins.rs:27-32 | `string_concat` returns the first string then the second, evaluating the second argument in the context the first left |
| Builtins.ConcatThenLen | src/builtins.rs:19-32 | the length of a concatenation is the sum of the lengths |
| Builtins.CallStringDisplay | src/builtins.rs:34-48 | the display builtins write their argument unchanged to standard output and standard error respectively and return no value |
| Errors.New | src/error/mod.rs:61-67 | the given kind, no message, no location |
| Errors.WithMsg | src/error/mod.rs:70-75 | sets the message; kind and location kept |
| Errors.WithLoc | src/error/mod.rs:77-82 | sets the location; kind and message kept |
| Errors.BuilderCommutes | src/error/mod.rs:70-82 | the two builder calls commute |
| Errors.BuilderLastWins | src/error/mod.rs:70-82 | a later message or location replaces the earlier one |
| Errors.BuilderComplete | src/error/mod.rs:61-82 | every error is `new` plus the builder calls for the parts it has |
| Errors.ErrKind.Discriminant | src/error/mod.rs:30-36 | Parsing is 0, Interpreter 1, IO 2 |
| Errors.ErrKind.Label | src/error/mod.rs:47-51 | "parsing", "interpreter" or "i/o" by kind; `LabelRoundTrip` proves the label determines the kind |
| Errors.ErrKind.ExitCode | src/error/mod.rs:84-87 | the discriminant plus one, between 1 and 3, never the success status |
| Errors.ExitCodes | src/error/mod.rs:84-87 | Parsing exits with 1, Interpreter with 2, IO with 3 |
| Errors.ExitCodeRoundTrip | src/error/mod.rs:84-87 | the exit status identifies the kind, both ways |
| Errors.LabelRoundTrip | src/error/mod.rs:47-51 | the labels `parsing`, `interpreter`, `i/o` identify the kind, both ways |
| Errors.FromIo | src/error/mod.rs:90-97 | an I/O error becomes kind IO with its text as message and no location |
| Errors.FromNom | src/error/mod.rs:100-107 | a parser error becomes kind Parsing with its text as message and no location |

## Left out

- The token recognizers (`Token::*`) are not part of this model. `Tokens` gives them simple character-level definitions. Whitespace is space, tab, newline and carriage return. `maybe_consume_extra` skips whitespace only, since comments are not modelled. An identifier is `[A-Za-z_][A-Za-z0-9_]*` and also skips the whitespace after it. `mut_tok` is the tag `mut ` (with the blank). A float is `digits.digits` and an int is `digits`. Every token error is a recoverable `Tag` error.
- Float literal values are kept as their lexeme; floating point is not modelled.
- Integer literals are unbounded naturals. The `i64` conversion of `string_len`'s result is not modelled, so lengths are taken to stay below 2^63.
- `Operator::precedence` and `is_left_associative` are not part of this model. `Ast.Operator` gives them a concrete ranking: `*` and `/` above `+` and `-`, the parentheses below all of them, and every operator left-associative.
- The `Stack` and `Queue` of `utils` are not part of this model. Both are sequences whose top is the last element (LIFO).
- `BoxConstruct` is not part of this model. Its `variable` alternative is modelled as an identifier read as a variable node.
- `Consumes` states only that a parser never leaves more input than it was given, not that the rest is a suffix.
- `Construct::block` is `todo!()` and is left out. So is `function_declaration`, which depends on it and never parses a return type.
- `Error::emit` and `exit` are left out: the coloured `eprintln!` and `process::exit` are I/O. So is the emit side effect of the `From` impls. Only the kind→label and kind→status mappings are modelled.
- The `From` impls are modelled on the source error's display text, which is passed as a parameter.
- The four-argument error that `type_instantiation.rs` builds is not defined in `src/error/mod.rs`. It is modelled as the datatype `TypeInstantiations.JinkoError` with the same four parts.
- The interpreter's type table is a map from names to declarations. The `Rc` sharing of declarations is not modelled.
- `Instruction::print` of a field is the parameter `show`.
- The `println!` debug line in `execute` (`src/instruction/type_instantiation.rs:102`) is left out.
- `Instruction::execute` on a builtin's argument is the parameter `eval`, evaluated in the interpreter context the previous argument left.
- `JkString::from_instance` is not part of this model. A builtin argument that is not a string instance is treated as a panic, like a missing argument (`args[i]`) or a failed `unwrap`; all three are the one outcome `Panicked`.
- What the display builtins write is recorded as the text of each stream, not performed.
- The commented-out legacy error type (`src/error/mod.rs:109-171`) is left out.
- Builtins.Call: the `Panicked` outcome does not distinguish which of the three panics occurred, and the panic on a non-string argument is a modelling assumption about `from_instance`.
- TypeIds.PrefixCompose: holds only when the first prefixing does not spell a primitive name; `PrefixCanSpellPrimitive` shows the exception to this side condition.
- ShuntingYardParser.ParseExpr: the result tree is stated by the example lemmas and by `ShuntingYardTokens.ParseRender`, not by a single closed-form grammar of expressions.
