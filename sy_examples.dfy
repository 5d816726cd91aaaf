/**
 * The expressions of the shunting-yard parser's tests, and a few edge
 * cases, each as a token list whose rendering is the expression's text and
 * whose parse, computed by the token-level reference, is the one stated.
 */
module ShuntingYardExamples {
  import opened Nom
  import Ast
  import opened ShuntingYardParser
  import opened ConstantProps
  import opened ShuntingYardTokens
  import Tokens
  import CallProps
  import C = Constructs
  import ShuntingYardProps

  function Int(i: nat): Ast.Instr { Ast.Const(Ast.IntConst(i)) }

  lemma SmallLiterals()
    ensures Literal(Ast.IntConst(1)) == "1" && Literal(Ast.IntConst(2)) == "2"
    ensures Literal(Ast.IntConst(3)) == "3" && Literal(Ast.IntConst(4)) == "4"
    ensures Literal(Ast.IntConst(7)) == "7"
  {
  }

  /** `1 + 2` is the sum of 1 and 2. */
  lemma ParseExampleAdd()
    ensures ParseExpr("1 + 2") == Ok("", Ast.BinOp(Int(1), Int(2), Ast.Add))
  {
    var items := [Item(Lit(Ast.IntConst(1)), " ")] + ([Item(Op(Ast.Add), " ")] + ([Item(Lit(Ast.IntConst(2)), "")] + []));
    ParseExampleAddValid(items);
    ParseExampleAddText(items);
    ParseExampleAddTokens(items);
    ParseIn("1 + 2", items, Ok("", Ast.BinOp(Int(1), Int(2), Ast.Add)));
  }

  lemma ParseExampleAddValid(items: seq<Item>)
    requires items == [Item(Lit(Ast.IntConst(1)), " ")] + ([Item(Op(Ast.Add), " ")] + ([Item(Lit(Ast.IntConst(2)), "")] + []))
    ensures ValidItems(items)
  {
    var t3 := [Item(Lit(Ast.IntConst(2)), "")] + [];
    var t2 := [Item(Op(Ast.Add), " ")] + t3;
    var t1 := [Item(Lit(Ast.IntConst(1)), " ")] + t2;
    ValidCons(Item(Lit(Ast.IntConst(2)), ""), []);
    ValidCons(Item(Op(Ast.Add), " "), t3);
    ValidCons(Item(Lit(Ast.IntConst(1)), " "), t2);
  }

  lemma ParseExampleAddPiece3()
    ensures TokenText(Lit(Ast.IntConst(2))) + ("" + "") == "2"
  {
    SmallLiterals();
  }

  lemma ParseExampleAddPiece2()
    ensures TokenText(Op(Ast.Add)) + (" " + "2") == "+ 2"
  {
  }

  lemma ParseExampleAddPiece1()
    ensures TokenText(Lit(Ast.IntConst(1))) + (" " + "+ 2") == "1 + 2"
  {
    SmallLiterals();
  }

  lemma ParseExampleAddText(items: seq<Item>)
    requires items == [Item(Lit(Ast.IntConst(1)), " ")] + ([Item(Op(Ast.Add), " ")] + ([Item(Lit(Ast.IntConst(2)), "")] + []))
    ensures Render(items) == "1 + 2"
  {
    var t3 := [Item(Lit(Ast.IntConst(2)), "")] + [];
    var t2 := [Item(Op(Ast.Add), " ")] + t3;
    var t1 := [Item(Lit(Ast.IntConst(1)), " ")] + t2;
    ParseExampleAddPiece3();
    RenderCons(Item(Lit(Ast.IntConst(2)), ""), [], "", "2");
    ParseExampleAddPiece2();
    RenderCons(Item(Op(Ast.Add), " "), t3, "2", "+ 2");
    ParseExampleAddPiece1();
    RenderCons(Item(Lit(Ast.IntConst(1)), " "), t2, "+ 2", "1 + 2");
  }

  lemma ParseExampleAddStep1()
    ensures Step(Stacks([], []), Lit(Ast.IntConst(1))) == Outcome(Stacks([], [Int(1)]), Ok("", ()))
  {
  }

  lemma ParseExampleAddStep2()
    ensures Step(Stacks([], [Int(1)]), Op(Ast.Add)) == Outcome(Stacks([Ast.Add], [Int(1)]), Ok("", ()))
  {
  }

  lemma ParseExampleAddStep3()
    ensures Step(Stacks([Ast.Add], [Int(1)]), Lit(Ast.IntConst(2))) == Outcome(Stacks([Ast.Add], [Int(1), Int(2)]), Ok("", ()))
  {
  }

  lemma ParseExampleAddDrain()
    ensures Drain(Stacks([Ast.Add], [Int(1), Int(2)])) == Outcome(Stacks([], [Ast.BinOp(Int(1), Int(2), Ast.Add)]), Ok("", ()))
  {
  }

  lemma ParseExampleAddTokens(items: seq<Item>)
    requires items == [Item(Lit(Ast.IntConst(1)), " ")] + ([Item(Op(Ast.Add), " ")] + ([Item(Lit(Ast.IntConst(2)), "")] + []))
    ensures ParseTokens(items) == Ok("", Ast.BinOp(Int(1), Int(2), Ast.Add))
  {
    var t3 := [Item(Lit(Ast.IntConst(2)), "")] + [];
    var t2 := [Item(Op(Ast.Add), " ")] + t3;
    var t1 := [Item(Lit(Ast.IntConst(1)), " ")] + t2;
    ParseExampleAddStep1();
    ParseExampleAddStep2();
    ParseExampleAddStep3();
    ParseExampleAddDrain();
    RunCons(Stacks([Ast.Add], [Int(1)]), Item(Lit(Ast.IntConst(2)), ""), [], Stacks([Ast.Add], [Int(1), Int(2)]));
    RunCons(Stacks([], [Int(1)]), Item(Op(Ast.Add), " "), t3, Stacks([Ast.Add], [Int(1)]));
    ParseTokensOf(Item(Lit(Ast.IntConst(1)), " "), t2, Stacks([], [Int(1)]), Stacks([Ast.Add], [Int(1), Int(2)]), Stacks([], [Ast.BinOp(Int(1), Int(2), Ast.Add)]));
  }

  /** `1 * 2` is the product of 1 and 2. */
  lemma ParseExampleMul()
    ensures ParseExpr("1 * 2") == Ok("", Ast.BinOp(Int(1), Int(2), Ast.Mul))
  {
    var items := [Item(Lit(Ast.IntConst(1)), " ")] + ([Item(Op(Ast.Mul), " ")] + ([Item(Lit(Ast.IntConst(2)), "")] + []));
    ParseExampleMulValid(items);
    ParseExampleMulText(items);
    ParseExampleMulTokens(items);
    ParseIn("1 * 2", items, Ok("", Ast.BinOp(Int(1), Int(2), Ast.Mul)));
  }

  lemma ParseExampleMulValid(items: seq<Item>)
    requires items == [Item(Lit(Ast.IntConst(1)), " ")] + ([Item(Op(Ast.Mul), " ")] + ([Item(Lit(Ast.IntConst(2)), "")] + []))
    ensures ValidItems(items)
  {
    var t3 := [Item(Lit(Ast.IntConst(2)), "")] + [];
    var t2 := [Item(Op(Ast.Mul), " ")] + t3;
    var t1 := [Item(Lit(Ast.IntConst(1)), " ")] + t2;
    ValidCons(Item(Lit(Ast.IntConst(2)), ""), []);
    ValidCons(Item(Op(Ast.Mul), " "), t3);
    ValidCons(Item(Lit(Ast.IntConst(1)), " "), t2);
  }

  lemma ParseExampleMulPiece3()
    ensures TokenText(Lit(Ast.IntConst(2))) + ("" + "") == "2"
  {
    SmallLiterals();
  }

  lemma ParseExampleMulPiece2()
    ensures TokenText(Op(Ast.Mul)) + (" " + "2") == "* 2"
  {
  }

  lemma ParseExampleMulPiece1()
    ensures TokenText(Lit(Ast.IntConst(1))) + (" " + "* 2") == "1 * 2"
  {
    SmallLiterals();
  }

  lemma ParseExampleMulText(items: seq<Item>)
    requires items == [Item(Lit(Ast.IntConst(1)), " ")] + ([Item(Op(Ast.Mul), " ")] + ([Item(Lit(Ast.IntConst(2)), "")] + []))
    ensures Render(items) == "1 * 2"
  {
    var t3 := [Item(Lit(Ast.IntConst(2)), "")] + [];
    var t2 := [Item(Op(Ast.Mul), " ")] + t3;
    var t1 := [Item(Lit(Ast.IntConst(1)), " ")] + t2;
    ParseExampleMulPiece3();
    RenderCons(Item(Lit(Ast.IntConst(2)), ""), [], "", "2");
    ParseExampleMulPiece2();
    RenderCons(Item(Op(Ast.Mul), " "), t3, "2", "* 2");
    ParseExampleMulPiece1();
    RenderCons(Item(Lit(Ast.IntConst(1)), " "), t2, "* 2", "1 * 2");
  }

  lemma ParseExampleMulStep1()
    ensures Step(Stacks([], []), Lit(Ast.IntConst(1))) == Outcome(Stacks([], [Int(1)]), Ok("", ()))
  {
  }

  lemma ParseExampleMulStep2()
    ensures Step(Stacks([], [Int(1)]), Op(Ast.Mul)) == Outcome(Stacks([Ast.Mul], [Int(1)]), Ok("", ()))
  {
  }

  lemma ParseExampleMulStep3()
    ensures Step(Stacks([Ast.Mul], [Int(1)]), Lit(Ast.IntConst(2))) == Outcome(Stacks([Ast.Mul], [Int(1), Int(2)]), Ok("", ()))
  {
  }

  lemma ParseExampleMulDrain()
    ensures Drain(Stacks([Ast.Mul], [Int(1), Int(2)])) == Outcome(Stacks([], [Ast.BinOp(Int(1), Int(2), Ast.Mul)]), Ok("", ()))
  {
  }

  lemma ParseExampleMulTokens(items: seq<Item>)
    requires items == [Item(Lit(Ast.IntConst(1)), " ")] + ([Item(Op(Ast.Mul), " ")] + ([Item(Lit(Ast.IntConst(2)), "")] + []))
    ensures ParseTokens(items) == Ok("", Ast.BinOp(Int(1), Int(2), Ast.Mul))
  {
    var t3 := [Item(Lit(Ast.IntConst(2)), "")] + [];
    var t2 := [Item(Op(Ast.Mul), " ")] + t3;
    var t1 := [Item(Lit(Ast.IntConst(1)), " ")] + t2;
    ParseExampleMulStep1();
    ParseExampleMulStep2();
    ParseExampleMulStep3();
    ParseExampleMulDrain();
    RunCons(Stacks([Ast.Mul], [Int(1)]), Item(Lit(Ast.IntConst(2)), ""), [], Stacks([Ast.Mul], [Int(1), Int(2)]));
    RunCons(Stacks([], [Int(1)]), Item(Op(Ast.Mul), " "), t3, Stacks([Ast.Mul], [Int(1)]));
    ParseTokensOf(Item(Lit(Ast.IntConst(1)), " "), t2, Stacks([], [Int(1)]), Stacks([Ast.Mul], [Int(1), Int(2)]), Stacks([], [Ast.BinOp(Int(1), Int(2), Ast.Mul)]));
  }

  /** In `1 * 2 + 3` the product is the left operand of the sum. */
  lemma ParseExampleNormalPriority()
    ensures ParseExpr("1 * 2 + 3") == Ok("", Ast.BinOp(Ast.BinOp(Int(1), Int(2), Ast.Mul), Int(3), Ast.Add))
  {
    var items := [Item(Lit(Ast.IntConst(1)), " ")] + ([Item(Op(Ast.Mul), " ")] + ([Item(Lit(Ast.IntConst(2)), " ")] + ([Item(Op(Ast.Add), " ")] + ([Item(Lit(Ast.IntConst(3)), "")] + []))));
    ParseExampleNormalPriorityValid(items);
    ParseExampleNormalPriorityText(items);
    ParseExampleNormalPriorityTokens(items);
    ParseIn("1 * 2 + 3", items, Ok("", Ast.BinOp(Ast.BinOp(Int(1), Int(2), Ast.Mul), Int(3), Ast.Add)));
  }

  lemma ParseExampleNormalPriorityValid(items: seq<Item>)
    requires items == [Item(Lit(Ast.IntConst(1)), " ")] + ([Item(Op(Ast.Mul), " ")] + ([Item(Lit(Ast.IntConst(2)), " ")] + ([Item(Op(Ast.Add), " ")] + ([Item(Lit(Ast.IntConst(3)), "")] + []))))
    ensures ValidItems(items)
  {
    var t5 := [Item(Lit(Ast.IntConst(3)), "")] + [];
    var t4 := [Item(Op(Ast.Add), " ")] + t5;
    var t3 := [Item(Lit(Ast.IntConst(2)), " ")] + t4;
    var t2 := [Item(Op(Ast.Mul), " ")] + t3;
    var t1 := [Item(Lit(Ast.IntConst(1)), " ")] + t2;
    ValidCons(Item(Lit(Ast.IntConst(3)), ""), []);
    ValidCons(Item(Op(Ast.Add), " "), t5);
    ValidCons(Item(Lit(Ast.IntConst(2)), " "), t4);
    ValidCons(Item(Op(Ast.Mul), " "), t3);
    ValidCons(Item(Lit(Ast.IntConst(1)), " "), t2);
  }

  lemma ParseExampleNormalPriorityPiece5()
    ensures TokenText(Lit(Ast.IntConst(3))) + ("" + "") == "3"
  {
    SmallLiterals();
  }

  lemma ParseExampleNormalPriorityPiece4()
    ensures TokenText(Op(Ast.Add)) + (" " + "3") == "+ 3"
  {
  }

  lemma ParseExampleNormalPriorityPiece3()
    ensures TokenText(Lit(Ast.IntConst(2))) + (" " + "+ 3") == "2 + 3"
  {
    SmallLiterals();
  }

  lemma ParseExampleNormalPriorityPiece2()
    ensures TokenText(Op(Ast.Mul)) + (" " + "2 + 3") == "* 2 + 3"
  {
  }

  lemma ParseExampleNormalPriorityPiece1()
    ensures TokenText(Lit(Ast.IntConst(1))) + (" " + "* 2 + 3") == "1 * 2 + 3"
  {
    SmallLiterals();
  }

  lemma ParseExampleNormalPriorityText(items: seq<Item>)
    requires items == [Item(Lit(Ast.IntConst(1)), " ")] + ([Item(Op(Ast.Mul), " ")] + ([Item(Lit(Ast.IntConst(2)), " ")] + ([Item(Op(Ast.Add), " ")] + ([Item(Lit(Ast.IntConst(3)), "")] + []))))
    ensures Render(items) == "1 * 2 + 3"
  {
    var t5 := [Item(Lit(Ast.IntConst(3)), "")] + [];
    var t4 := [Item(Op(Ast.Add), " ")] + t5;
    var t3 := [Item(Lit(Ast.IntConst(2)), " ")] + t4;
    var t2 := [Item(Op(Ast.Mul), " ")] + t3;
    var t1 := [Item(Lit(Ast.IntConst(1)), " ")] + t2;
    ParseExampleNormalPriorityPiece5();
    RenderCons(Item(Lit(Ast.IntConst(3)), ""), [], "", "3");
    ParseExampleNormalPriorityPiece4();
    RenderCons(Item(Op(Ast.Add), " "), t5, "3", "+ 3");
    ParseExampleNormalPriorityPiece3();
    RenderCons(Item(Lit(Ast.IntConst(2)), " "), t4, "+ 3", "2 + 3");
    ParseExampleNormalPriorityPiece2();
    RenderCons(Item(Op(Ast.Mul), " "), t3, "2 + 3", "* 2 + 3");
    ParseExampleNormalPriorityPiece1();
    RenderCons(Item(Lit(Ast.IntConst(1)), " "), t2, "* 2 + 3", "1 * 2 + 3");
  }

  lemma ParseExampleNormalPriorityStep1()
    ensures Step(Stacks([], []), Lit(Ast.IntConst(1))) == Outcome(Stacks([], [Int(1)]), Ok("", ()))
  {
  }

  lemma ParseExampleNormalPriorityStep2()
    ensures Step(Stacks([], [Int(1)]), Op(Ast.Mul)) == Outcome(Stacks([Ast.Mul], [Int(1)]), Ok("", ()))
  {
  }

  lemma ParseExampleNormalPriorityStep3()
    ensures Step(Stacks([Ast.Mul], [Int(1)]), Lit(Ast.IntConst(2))) == Outcome(Stacks([Ast.Mul], [Int(1), Int(2)]), Ok("", ()))
  {
  }

  lemma ParseExampleNormalPriorityStep4()
    ensures Step(Stacks([Ast.Mul], [Int(1), Int(2)]), Op(Ast.Add)) == Outcome(Stacks([Ast.Add], [Ast.BinOp(Int(1), Int(2), Ast.Mul)]), Ok("", ()))
  {
  }

  lemma ParseExampleNormalPriorityStep5()
    ensures Step(Stacks([Ast.Add], [Ast.BinOp(Int(1), Int(2), Ast.Mul)]), Lit(Ast.IntConst(3))) == Outcome(Stacks([Ast.Add], [Ast.BinOp(Int(1), Int(2), Ast.Mul), Int(3)]), Ok("", ()))
  {
  }

  lemma ParseExampleNormalPriorityDrain()
    ensures Drain(Stacks([Ast.Add], [Ast.BinOp(Int(1), Int(2), Ast.Mul), Int(3)])) == Outcome(Stacks([], [Ast.BinOp(Ast.BinOp(Int(1), Int(2), Ast.Mul), Int(3), Ast.Add)]), Ok("", ()))
  {
  }

  lemma ParseExampleNormalPriorityTokens(items: seq<Item>)
    requires items == [Item(Lit(Ast.IntConst(1)), " ")] + ([Item(Op(Ast.Mul), " ")] + ([Item(Lit(Ast.IntConst(2)), " ")] + ([Item(Op(Ast.Add), " ")] + ([Item(Lit(Ast.IntConst(3)), "")] + []))))
    ensures ParseTokens(items) == Ok("", Ast.BinOp(Ast.BinOp(Int(1), Int(2), Ast.Mul), Int(3), Ast.Add))
  {
    var t5 := [Item(Lit(Ast.IntConst(3)), "")] + [];
    var t4 := [Item(Op(Ast.Add), " ")] + t5;
    var t3 := [Item(Lit(Ast.IntConst(2)), " ")] + t4;
    var t2 := [Item(Op(Ast.Mul), " ")] + t3;
    var t1 := [Item(Lit(Ast.IntConst(1)), " ")] + t2;
    ParseExampleNormalPriorityStep1();
    ParseExampleNormalPriorityStep2();
    ParseExampleNormalPriorityStep3();
    ParseExampleNormalPriorityStep4();
    ParseExampleNormalPriorityStep5();
    ParseExampleNormalPriorityDrain();
    RunCons(Stacks([Ast.Add], [Ast.BinOp(Int(1), Int(2), Ast.Mul)]), Item(Lit(Ast.IntConst(3)), ""), [], Stacks([Ast.Add], [Ast.BinOp(Int(1), Int(2), Ast.Mul), Int(3)]));
    RunCons(Stacks([Ast.Mul], [Int(1), Int(2)]), Item(Op(Ast.Add), " "), t5, Stacks([Ast.Add], [Ast.BinOp(Int(1), Int(2), Ast.Mul)]));
    RunCons(Stacks([Ast.Mul], [Int(1)]), Item(Lit(Ast.IntConst(2)), " "), t4, Stacks([Ast.Mul], [Int(1), Int(2)]));
    RunCons(Stacks([], [Int(1)]), Item(Op(Ast.Mul), " "), t3, Stacks([Ast.Mul], [Int(1)]));
    ParseTokensOf(Item(Lit(Ast.IntConst(1)), " "), t2, Stacks([], [Int(1)]), Stacks([Ast.Add], [Ast.BinOp(Int(1), Int(2), Ast.Mul), Int(3)]), Stacks([], [Ast.BinOp(Ast.BinOp(Int(1), Int(2), Ast.Mul), Int(3), Ast.Add)]));
  }

  /** In `3 + 1 * 2` the product is the right operand of the sum. */
  lemma ParseExampleBackPriority()
    ensures ParseExpr("3 + 1 * 2") == Ok("", Ast.BinOp(Int(3), Ast.BinOp(Int(1), Int(2), Ast.Mul), Ast.Add))
  {
    var items := [Item(Lit(Ast.IntConst(3)), " ")] + ([Item(Op(Ast.Add), " ")] + ([Item(Lit(Ast.IntConst(1)), " ")] + ([Item(Op(Ast.Mul), " ")] + ([Item(Lit(Ast.IntConst(2)), "")] + []))));
    ParseExampleBackPriorityValid(items);
    ParseExampleBackPriorityText(items);
    ParseExampleBackPriorityTokens(items);
    ParseIn("3 + 1 * 2", items, Ok("", Ast.BinOp(Int(3), Ast.BinOp(Int(1), Int(2), Ast.Mul), Ast.Add)));
  }

  lemma ParseExampleBackPriorityValid(items: seq<Item>)
    requires items == [Item(Lit(Ast.IntConst(3)), " ")] + ([Item(Op(Ast.Add), " ")] + ([Item(Lit(Ast.IntConst(1)), " ")] + ([Item(Op(Ast.Mul), " ")] + ([Item(Lit(Ast.IntConst(2)), "")] + []))))
    ensures ValidItems(items)
  {
    var t5 := [Item(Lit(Ast.IntConst(2)), "")] + [];
    var t4 := [Item(Op(Ast.Mul), " ")] + t5;
    var t3 := [Item(Lit(Ast.IntConst(1)), " ")] + t4;
    var t2 := [Item(Op(Ast.Add), " ")] + t3;
    var t1 := [Item(Lit(Ast.IntConst(3)), " ")] + t2;
    ValidCons(Item(Lit(Ast.IntConst(2)), ""), []);
    ValidCons(Item(Op(Ast.Mul), " "), t5);
    ValidCons(Item(Lit(Ast.IntConst(1)), " "), t4);
    ValidCons(Item(Op(Ast.Add), " "), t3);
    ValidCons(Item(Lit(Ast.IntConst(3)), " "), t2);
  }

  lemma ParseExampleBackPriorityPiece5()
    ensures TokenText(Lit(Ast.IntConst(2))) + ("" + "") == "2"
  {
    SmallLiterals();
  }

  lemma ParseExampleBackPriorityPiece4()
    ensures TokenText(Op(Ast.Mul)) + (" " + "2") == "* 2"
  {
  }

  lemma ParseExampleBackPriorityPiece3()
    ensures TokenText(Lit(Ast.IntConst(1))) + (" " + "* 2") == "1 * 2"
  {
    SmallLiterals();
  }

  lemma ParseExampleBackPriorityPiece2()
    ensures TokenText(Op(Ast.Add)) + (" " + "1 * 2") == "+ 1 * 2"
  {
  }

  lemma ParseExampleBackPriorityPiece1()
    ensures TokenText(Lit(Ast.IntConst(3))) + (" " + "+ 1 * 2") == "3 + 1 * 2"
  {
    SmallLiterals();
  }

  lemma ParseExampleBackPriorityText(items: seq<Item>)
    requires items == [Item(Lit(Ast.IntConst(3)), " ")] + ([Item(Op(Ast.Add), " ")] + ([Item(Lit(Ast.IntConst(1)), " ")] + ([Item(Op(Ast.Mul), " ")] + ([Item(Lit(Ast.IntConst(2)), "")] + []))))
    ensures Render(items) == "3 + 1 * 2"
  {
    var t5 := [Item(Lit(Ast.IntConst(2)), "")] + [];
    var t4 := [Item(Op(Ast.Mul), " ")] + t5;
    var t3 := [Item(Lit(Ast.IntConst(1)), " ")] + t4;
    var t2 := [Item(Op(Ast.Add), " ")] + t3;
    var t1 := [Item(Lit(Ast.IntConst(3)), " ")] + t2;
    ParseExampleBackPriorityPiece5();
    RenderCons(Item(Lit(Ast.IntConst(2)), ""), [], "", "2");
    ParseExampleBackPriorityPiece4();
    RenderCons(Item(Op(Ast.Mul), " "), t5, "2", "* 2");
    ParseExampleBackPriorityPiece3();
    RenderCons(Item(Lit(Ast.IntConst(1)), " "), t4, "* 2", "1 * 2");
    ParseExampleBackPriorityPiece2();
    RenderCons(Item(Op(Ast.Add), " "), t3, "1 * 2", "+ 1 * 2");
    ParseExampleBackPriorityPiece1();
    RenderCons(Item(Lit(Ast.IntConst(3)), " "), t2, "+ 1 * 2", "3 + 1 * 2");
  }

  lemma ParseExampleBackPriorityStep1()
    ensures Step(Stacks([], []), Lit(Ast.IntConst(3))) == Outcome(Stacks([], [Int(3)]), Ok("", ()))
  {
  }

  lemma ParseExampleBackPriorityStep2()
    ensures Step(Stacks([], [Int(3)]), Op(Ast.Add)) == Outcome(Stacks([Ast.Add], [Int(3)]), Ok("", ()))
  {
  }

  lemma ParseExampleBackPriorityStep3()
    ensures Step(Stacks([Ast.Add], [Int(3)]), Lit(Ast.IntConst(1))) == Outcome(Stacks([Ast.Add], [Int(3), Int(1)]), Ok("", ()))
  {
  }

  lemma ParseExampleBackPriorityStep4()
    ensures Step(Stacks([Ast.Add], [Int(3), Int(1)]), Op(Ast.Mul)) == Outcome(Stacks([Ast.Add, Ast.Mul], [Int(3), Int(1)]), Ok("", ()))
  {
  }

  lemma ParseExampleBackPriorityStep5()
    ensures Step(Stacks([Ast.Add, Ast.Mul], [Int(3), Int(1)]), Lit(Ast.IntConst(2))) == Outcome(Stacks([Ast.Add, Ast.Mul], [Int(3), Int(1), Int(2)]), Ok("", ()))
  {
  }

  lemma ParseExampleBackPriorityDrain()
    ensures Drain(Stacks([Ast.Add, Ast.Mul], [Int(3), Int(1), Int(2)])) == Outcome(Stacks([], [Ast.BinOp(Int(3), Ast.BinOp(Int(1), Int(2), Ast.Mul), Ast.Add)]), Ok("", ()))
  {
  }

  lemma ParseExampleBackPriorityTokens(items: seq<Item>)
    requires items == [Item(Lit(Ast.IntConst(3)), " ")] + ([Item(Op(Ast.Add), " ")] + ([Item(Lit(Ast.IntConst(1)), " ")] + ([Item(Op(Ast.Mul), " ")] + ([Item(Lit(Ast.IntConst(2)), "")] + []))))
    ensures ParseTokens(items) == Ok("", Ast.BinOp(Int(3), Ast.BinOp(Int(1), Int(2), Ast.Mul), Ast.Add))
  {
    var t5 := [Item(Lit(Ast.IntConst(2)), "")] + [];
    var t4 := [Item(Op(Ast.Mul), " ")] + t5;
    var t3 := [Item(Lit(Ast.IntConst(1)), " ")] + t4;
    var t2 := [Item(Op(Ast.Add), " ")] + t3;
    var t1 := [Item(Lit(Ast.IntConst(3)), " ")] + t2;
    ParseExampleBackPriorityStep1();
    ParseExampleBackPriorityStep2();
    ParseExampleBackPriorityStep3();
    ParseExampleBackPriorityStep4();
    ParseExampleBackPriorityStep5();
    ParseExampleBackPriorityDrain();
    RunCons(Stacks([Ast.Add, Ast.Mul], [Int(3), Int(1)]), Item(Lit(Ast.IntConst(2)), ""), [], Stacks([Ast.Add, Ast.Mul], [Int(3), Int(1), Int(2)]));
    RunCons(Stacks([Ast.Add], [Int(3), Int(1)]), Item(Op(Ast.Mul), " "), t5, Stacks([Ast.Add, Ast.Mul], [Int(3), Int(1)]));
    RunCons(Stacks([Ast.Add], [Int(3)]), Item(Lit(Ast.IntConst(1)), " "), t4, Stacks([Ast.Add], [Int(3), Int(1)]));
    RunCons(Stacks([], [Int(3)]), Item(Op(Ast.Add), " "), t3, Stacks([Ast.Add], [Int(3)]));
    ParseTokensOf(Item(Lit(Ast.IntConst(3)), " "), t2, Stacks([], [Int(3)]), Stacks([Ast.Add, Ast.Mul], [Int(3), Int(1), Int(2)]), Stacks([], [Ast.BinOp(Int(3), Ast.BinOp(Int(1), Int(2), Ast.Mul), Ast.Add)]));
  }

  /** In `(3 + 1) * 2` the parenthesised sum is the left operand of the product. */
  lemma ParseExampleParentheses()
    ensures ParseExpr("(3 + 1) * 2") == Ok("", Ast.BinOp(Ast.BinOp(Int(3), Int(1), Ast.Add), Int(2), Ast.Mul))
  {
    var items := [Item(Op(Ast.LeftParenthesis), "")] + ([Item(Lit(Ast.IntConst(3)), " ")] + ([Item(Op(Ast.Add), " ")] + ([Item(Lit(Ast.IntConst(1)), "")] + ([Item(Op(Ast.RightParenthesis), " ")] + ([Item(Op(Ast.Mul), " ")] + ([Item(Lit(Ast.IntConst(2)), "")] + []))))));
    ParseExampleParenthesesValid(items);
    ParseExampleParenthesesText(items);
    ParseExampleParenthesesTokens(items);
    ParseIn("(3 + 1) * 2", items, Ok("", Ast.BinOp(Ast.BinOp(Int(3), Int(1), Ast.Add), Int(2), Ast.Mul)));
  }

  lemma ParseExampleParenthesesValid(items: seq<Item>)
    requires items == [Item(Op(Ast.LeftParenthesis), "")] + ([Item(Lit(Ast.IntConst(3)), " ")] + ([Item(Op(Ast.Add), " ")] + ([Item(Lit(Ast.IntConst(1)), "")] + ([Item(Op(Ast.RightParenthesis), " ")] + ([Item(Op(Ast.Mul), " ")] + ([Item(Lit(Ast.IntConst(2)), "")] + []))))))
    ensures ValidItems(items)
  {
    var t7 := [Item(Lit(Ast.IntConst(2)), "")] + [];
    var t6 := [Item(Op(Ast.Mul), " ")] + t7;
    var t5 := [Item(Op(Ast.RightParenthesis), " ")] + t6;
    var t4 := [Item(Lit(Ast.IntConst(1)), "")] + t5;
    var t3 := [Item(Op(Ast.Add), " ")] + t4;
    var t2 := [Item(Lit(Ast.IntConst(3)), " ")] + t3;
    var t1 := [Item(Op(Ast.LeftParenthesis), "")] + t2;
    ValidCons(Item(Lit(Ast.IntConst(2)), ""), []);
    ValidCons(Item(Op(Ast.Mul), " "), t7);
    ValidCons(Item(Op(Ast.RightParenthesis), " "), t6);
    ValidCons(Item(Lit(Ast.IntConst(1)), ""), t5);
    ValidCons(Item(Op(Ast.Add), " "), t4);
    ValidCons(Item(Lit(Ast.IntConst(3)), " "), t3);
    ValidCons(Item(Op(Ast.LeftParenthesis), ""), t2);
  }

  lemma ParseExampleParenthesesPiece7()
    ensures TokenText(Lit(Ast.IntConst(2))) + ("" + "") == "2"
  {
    SmallLiterals();
  }

  lemma ParseExampleParenthesesPiece6()
    ensures TokenText(Op(Ast.Mul)) + (" " + "2") == "* 2"
  {
  }

  lemma ParseExampleParenthesesPiece5()
    ensures TokenText(Op(Ast.RightParenthesis)) + (" " + "* 2") == ") * 2"
  {
  }

  lemma ParseExampleParenthesesPiece4()
    ensures TokenText(Lit(Ast.IntConst(1))) + ("" + ") * 2") == "1) * 2"
  {
    SmallLiterals();
  }

  lemma ParseExampleParenthesesPiece3()
    ensures TokenText(Op(Ast.Add)) + (" " + "1) * 2") == "+ 1) * 2"
  {
  }

  lemma ParseExampleParenthesesPiece2()
    ensures TokenText(Lit(Ast.IntConst(3))) + (" " + "+ 1) * 2") == "3 + 1) * 2"
  {
    SmallLiterals();
  }

  lemma ParseExampleParenthesesPiece1()
    ensures TokenText(Op(Ast.LeftParenthesis)) + ("" + "3 + 1) * 2") == "(3 + 1) * 2"
  {
  }

  lemma ParseExampleParenthesesText(items: seq<Item>)
    requires items == [Item(Op(Ast.LeftParenthesis), "")] + ([Item(Lit(Ast.IntConst(3)), " ")] + ([Item(Op(Ast.Add), " ")] + ([Item(Lit(Ast.IntConst(1)), "")] + ([Item(Op(Ast.RightParenthesis), " ")] + ([Item(Op(Ast.Mul), " ")] + ([Item(Lit(Ast.IntConst(2)), "")] + []))))))
    ensures Render(items) == "(3 + 1) * 2"
  {
    var t7 := [Item(Lit(Ast.IntConst(2)), "")] + [];
    var t6 := [Item(Op(Ast.Mul), " ")] + t7;
    var t5 := [Item(Op(Ast.RightParenthesis), " ")] + t6;
    var t4 := [Item(Lit(Ast.IntConst(1)), "")] + t5;
    var t3 := [Item(Op(Ast.Add), " ")] + t4;
    var t2 := [Item(Lit(Ast.IntConst(3)), " ")] + t3;
    var t1 := [Item(Op(Ast.LeftParenthesis), "")] + t2;
    ParseExampleParenthesesPiece7();
    RenderCons(Item(Lit(Ast.IntConst(2)), ""), [], "", "2");
    ParseExampleParenthesesPiece6();
    RenderCons(Item(Op(Ast.Mul), " "), t7, "2", "* 2");
    ParseExampleParenthesesPiece5();
    RenderCons(Item(Op(Ast.RightParenthesis), " "), t6, "* 2", ") * 2");
    ParseExampleParenthesesPiece4();
    RenderCons(Item(Lit(Ast.IntConst(1)), ""), t5, ") * 2", "1) * 2");
    ParseExampleParenthesesPiece3();
    RenderCons(Item(Op(Ast.Add), " "), t4, "1) * 2", "+ 1) * 2");
    ParseExampleParenthesesPiece2();
    RenderCons(Item(Lit(Ast.IntConst(3)), " "), t3, "+ 1) * 2", "3 + 1) * 2");
    ParseExampleParenthesesPiece1();
    RenderCons(Item(Op(Ast.LeftParenthesis), ""), t2, "3 + 1) * 2", "(3 + 1) * 2");
  }

  lemma ParseExampleParenthesesStep1()
    ensures Step(Stacks([], []), Op(Ast.LeftParenthesis)) == Outcome(Stacks([Ast.LeftParenthesis], []), Ok("", ()))
  {
  }

  lemma ParseExampleParenthesesStep2()
    ensures Step(Stacks([Ast.LeftParenthesis], []), Lit(Ast.IntConst(3))) == Outcome(Stacks([Ast.LeftParenthesis], [Int(3)]), Ok("", ()))
  {
  }

  lemma ParseExampleParenthesesStep3()
    ensures Step(Stacks([Ast.LeftParenthesis], [Int(3)]), Op(Ast.Add)) == Outcome(Stacks([Ast.LeftParenthesis, Ast.Add], [Int(3)]), Ok("", ()))
  {
  }

  lemma ParseExampleParenthesesStep4()
    ensures Step(Stacks([Ast.LeftParenthesis, Ast.Add], [Int(3)]), Lit(Ast.IntConst(1))) == Outcome(Stacks([Ast.LeftParenthesis, Ast.Add], [Int(3), Int(1)]), Ok("", ()))
  {
  }

  lemma ParseExampleParenthesesStep5()
    ensures Step(Stacks([Ast.LeftParenthesis, Ast.Add], [Int(3), Int(1)]), Op(Ast.RightParenthesis)) == Outcome(Stacks([], [Ast.BinOp(Int(3), Int(1), Ast.Add)]), Ok("", ()))
  {
  }

  lemma ParseExampleParenthesesStep6()
    ensures Step(Stacks([], [Ast.BinOp(Int(3), Int(1), Ast.Add)]), Op(Ast.Mul)) == Outcome(Stacks([Ast.Mul], [Ast.BinOp(Int(3), Int(1), Ast.Add)]), Ok("", ()))
  {
  }

  lemma ParseExampleParenthesesStep7()
    ensures Step(Stacks([Ast.Mul], [Ast.BinOp(Int(3), Int(1), Ast.Add)]), Lit(Ast.IntConst(2))) == Outcome(Stacks([Ast.Mul], [Ast.BinOp(Int(3), Int(1), Ast.Add), Int(2)]), Ok("", ()))
  {
  }

  lemma ParseExampleParenthesesDrain()
    ensures Drain(Stacks([Ast.Mul], [Ast.BinOp(Int(3), Int(1), Ast.Add), Int(2)])) == Outcome(Stacks([], [Ast.BinOp(Ast.BinOp(Int(3), Int(1), Ast.Add), Int(2), Ast.Mul)]), Ok("", ()))
  {
  }

  lemma ParseExampleParenthesesTokens(items: seq<Item>)
    requires items == [Item(Op(Ast.LeftParenthesis), "")] + ([Item(Lit(Ast.IntConst(3)), " ")] + ([Item(Op(Ast.Add), " ")] + ([Item(Lit(Ast.IntConst(1)), "")] + ([Item(Op(Ast.RightParenthesis), " ")] + ([Item(Op(Ast.Mul), " ")] + ([Item(Lit(Ast.IntConst(2)), "")] + []))))))
    ensures ParseTokens(items) == Ok("", Ast.BinOp(Ast.BinOp(Int(3), Int(1), Ast.Add), Int(2), Ast.Mul))
  {
    var t7 := [Item(Lit(Ast.IntConst(2)), "")] + [];
    var t6 := [Item(Op(Ast.Mul), " ")] + t7;
    var t5 := [Item(Op(Ast.RightParenthesis), " ")] + t6;
    var t4 := [Item(Lit(Ast.IntConst(1)), "")] + t5;
    var t3 := [Item(Op(Ast.Add), " ")] + t4;
    var t2 := [Item(Lit(Ast.IntConst(3)), " ")] + t3;
    var t1 := [Item(Op(Ast.LeftParenthesis), "")] + t2;
    ParseExampleParenthesesStep1();
    ParseExampleParenthesesStep2();
    ParseExampleParenthesesStep3();
    ParseExampleParenthesesStep4();
    ParseExampleParenthesesStep5();
    ParseExampleParenthesesStep6();
    ParseExampleParenthesesStep7();
    ParseExampleParenthesesDrain();
    RunCons(Stacks([Ast.Mul], [Ast.BinOp(Int(3), Int(1), Ast.Add)]), Item(Lit(Ast.IntConst(2)), ""), [], Stacks([Ast.Mul], [Ast.BinOp(Int(3), Int(1), Ast.Add), Int(2)]));
    RunCons(Stacks([], [Ast.BinOp(Int(3), Int(1), Ast.Add)]), Item(Op(Ast.Mul), " "), t7, Stacks([Ast.Mul], [Ast.BinOp(Int(3), Int(1), Ast.Add)]));
    RunCons(Stacks([Ast.LeftParenthesis, Ast.Add], [Int(3), Int(1)]), Item(Op(Ast.RightParenthesis), " "), t6, Stacks([], [Ast.BinOp(Int(3), Int(1), Ast.Add)]));
    RunCons(Stacks([Ast.LeftParenthesis, Ast.Add], [Int(3)]), Item(Lit(Ast.IntConst(1)), ""), t5, Stacks([Ast.LeftParenthesis, Ast.Add], [Int(3), Int(1)]));
    RunCons(Stacks([Ast.LeftParenthesis], [Int(3)]), Item(Op(Ast.Add), " "), t4, Stacks([Ast.LeftParenthesis, Ast.Add], [Int(3)]));
    RunCons(Stacks([Ast.LeftParenthesis], []), Item(Lit(Ast.IntConst(3)), " "), t3, Stacks([Ast.LeftParenthesis], [Int(3)]));
    ParseTokensOf(Item(Op(Ast.LeftParenthesis), ""), t2, Stacks([Ast.LeftParenthesis], []), Stacks([Ast.Mul], [Ast.BinOp(Int(3), Int(1), Ast.Add), Int(2)]), Stacks([], [Ast.BinOp(Ast.BinOp(Int(3), Int(1), Ast.Add), Int(2), Ast.Mul)]));
  }

  /** In `2 * (3 + 1)` the parenthesised sum is the right operand of the product. */
  lemma ParseExampleParenthesesReverse()
    ensures ParseExpr("2 * (3 + 1)") == Ok("", Ast.BinOp(Int(2), Ast.BinOp(Int(3), Int(1), Ast.Add), Ast.Mul))
  {
    var items := [Item(Lit(Ast.IntConst(2)), " ")] + ([Item(Op(Ast.Mul), " ")] + ([Item(Op(Ast.LeftParenthesis), "")] + ([Item(Lit(Ast.IntConst(3)), " ")] + ([Item(Op(Ast.Add), " ")] + ([Item(Lit(Ast.IntConst(1)), "")] + ([Item(Op(Ast.RightParenthesis), "")] + []))))));
    ParseExampleParenthesesReverseValid(items);
    ParseExampleParenthesesReverseText(items);
    ParseExampleParenthesesReverseTokens(items);
    ParseIn("2 * (3 + 1)", items, Ok("", Ast.BinOp(Int(2), Ast.BinOp(Int(3), Int(1), Ast.Add), Ast.Mul)));
  }

  lemma ParseExampleParenthesesReverseValid(items: seq<Item>)
    requires items == [Item(Lit(Ast.IntConst(2)), " ")] + ([Item(Op(Ast.Mul), " ")] + ([Item(Op(Ast.LeftParenthesis), "")] + ([Item(Lit(Ast.IntConst(3)), " ")] + ([Item(Op(Ast.Add), " ")] + ([Item(Lit(Ast.IntConst(1)), "")] + ([Item(Op(Ast.RightParenthesis), "")] + []))))))
    ensures ValidItems(items)
  {
    var t7 := [Item(Op(Ast.RightParenthesis), "")] + [];
    var t6 := [Item(Lit(Ast.IntConst(1)), "")] + t7;
    var t5 := [Item(Op(Ast.Add), " ")] + t6;
    var t4 := [Item(Lit(Ast.IntConst(3)), " ")] + t5;
    var t3 := [Item(Op(Ast.LeftParenthesis), "")] + t4;
    var t2 := [Item(Op(Ast.Mul), " ")] + t3;
    var t1 := [Item(Lit(Ast.IntConst(2)), " ")] + t2;
    ValidCons(Item(Op(Ast.RightParenthesis), ""), []);
    ValidCons(Item(Lit(Ast.IntConst(1)), ""), t7);
    ValidCons(Item(Op(Ast.Add), " "), t6);
    ValidCons(Item(Lit(Ast.IntConst(3)), " "), t5);
    ValidCons(Item(Op(Ast.LeftParenthesis), ""), t4);
    ValidCons(Item(Op(Ast.Mul), " "), t3);
    ValidCons(Item(Lit(Ast.IntConst(2)), " "), t2);
  }

  lemma ParseExampleParenthesesReversePiece7()
    ensures TokenText(Op(Ast.RightParenthesis)) + ("" + "") == ")"
  {
  }

  lemma ParseExampleParenthesesReversePiece6()
    ensures TokenText(Lit(Ast.IntConst(1))) + ("" + ")") == "1)"
  {
    SmallLiterals();
  }

  lemma ParseExampleParenthesesReversePiece5()
    ensures TokenText(Op(Ast.Add)) + (" " + "1)") == "+ 1)"
  {
  }

  lemma ParseExampleParenthesesReversePiece4()
    ensures TokenText(Lit(Ast.IntConst(3))) + (" " + "+ 1)") == "3 + 1)"
  {
    SmallLiterals();
  }

  lemma ParseExampleParenthesesReversePiece3()
    ensures TokenText(Op(Ast.LeftParenthesis)) + ("" + "3 + 1)") == "(3 + 1)"
  {
  }

  lemma ParseExampleParenthesesReversePiece2()
    ensures TokenText(Op(Ast.Mul)) + (" " + "(3 + 1)") == "* (3 + 1)"
  {
  }

  lemma ParseExampleParenthesesReversePiece1()
    ensures TokenText(Lit(Ast.IntConst(2))) + (" " + "* (3 + 1)") == "2 * (3 + 1)"
  {
    SmallLiterals();
  }

  lemma ParseExampleParenthesesReverseText(items: seq<Item>)
    requires items == [Item(Lit(Ast.IntConst(2)), " ")] + ([Item(Op(Ast.Mul), " ")] + ([Item(Op(Ast.LeftParenthesis), "")] + ([Item(Lit(Ast.IntConst(3)), " ")] + ([Item(Op(Ast.Add), " ")] + ([Item(Lit(Ast.IntConst(1)), "")] + ([Item(Op(Ast.RightParenthesis), "")] + []))))))
    ensures Render(items) == "2 * (3 + 1)"
  {
    var t7 := [Item(Op(Ast.RightParenthesis), "")] + [];
    var t6 := [Item(Lit(Ast.IntConst(1)), "")] + t7;
    var t5 := [Item(Op(Ast.Add), " ")] + t6;
    var t4 := [Item(Lit(Ast.IntConst(3)), " ")] + t5;
    var t3 := [Item(Op(Ast.LeftParenthesis), "")] + t4;
    var t2 := [Item(Op(Ast.Mul), " ")] + t3;
    var t1 := [Item(Lit(Ast.IntConst(2)), " ")] + t2;
    ParseExampleParenthesesReversePiece7();
    RenderCons(Item(Op(Ast.RightParenthesis), ""), [], "", ")");
    ParseExampleParenthesesReversePiece6();
    RenderCons(Item(Lit(Ast.IntConst(1)), ""), t7, ")", "1)");
    ParseExampleParenthesesReversePiece5();
    RenderCons(Item(Op(Ast.Add), " "), t6, "1)", "+ 1)");
    ParseExampleParenthesesReversePiece4();
    RenderCons(Item(Lit(Ast.IntConst(3)), " "), t5, "+ 1)", "3 + 1)");
    ParseExampleParenthesesReversePiece3();
    RenderCons(Item(Op(Ast.LeftParenthesis), ""), t4, "3 + 1)", "(3 + 1)");
    ParseExampleParenthesesReversePiece2();
    RenderCons(Item(Op(Ast.Mul), " "), t3, "(3 + 1)", "* (3 + 1)");
    ParseExampleParenthesesReversePiece1();
    RenderCons(Item(Lit(Ast.IntConst(2)), " "), t2, "* (3 + 1)", "2 * (3 + 1)");
  }

  lemma ParseExampleParenthesesReverseStep1()
    ensures Step(Stacks([], []), Lit(Ast.IntConst(2))) == Outcome(Stacks([], [Int(2)]), Ok("", ()))
  {
  }

  lemma ParseExampleParenthesesReverseStep2()
    ensures Step(Stacks([], [Int(2)]), Op(Ast.Mul)) == Outcome(Stacks([Ast.Mul], [Int(2)]), Ok("", ()))
  {
  }

  lemma ParseExampleParenthesesReverseStep3()
    ensures Step(Stacks([Ast.Mul], [Int(2)]), Op(Ast.LeftParenthesis)) == Outcome(Stacks([Ast.Mul, Ast.LeftParenthesis], [Int(2)]), Ok("", ()))
  {
  }

  lemma ParseExampleParenthesesReverseStep4()
    ensures Step(Stacks([Ast.Mul, Ast.LeftParenthesis], [Int(2)]), Lit(Ast.IntConst(3))) == Outcome(Stacks([Ast.Mul, Ast.LeftParenthesis], [Int(2), Int(3)]), Ok("", ()))
  {
  }

  lemma ParseExampleParenthesesReverseStep5()
    ensures Step(Stacks([Ast.Mul, Ast.LeftParenthesis], [Int(2), Int(3)]), Op(Ast.Add)) == Outcome(Stacks([Ast.Mul, Ast.LeftParenthesis, Ast.Add], [Int(2), Int(3)]), Ok("", ()))
  {
  }

  lemma ParseExampleParenthesesReverseStep6()
    ensures Step(Stacks([Ast.Mul, Ast.LeftParenthesis, Ast.Add], [Int(2), Int(3)]), Lit(Ast.IntConst(1))) == Outcome(Stacks([Ast.Mul, Ast.LeftParenthesis, Ast.Add], [Int(2), Int(3), Int(1)]), Ok("", ()))
  {
  }

  lemma ParseExampleParenthesesReverseStep7()
    ensures Step(Stacks([Ast.Mul, Ast.LeftParenthesis, Ast.Add], [Int(2), Int(3), Int(1)]), Op(Ast.RightParenthesis)) == Outcome(Stacks([Ast.Mul], [Int(2), Ast.BinOp(Int(3), Int(1), Ast.Add)]), Ok("", ()))
  {
  }

  lemma ParseExampleParenthesesReverseDrain()
    ensures Drain(Stacks([Ast.Mul], [Int(2), Ast.BinOp(Int(3), Int(1), Ast.Add)])) == Outcome(Stacks([], [Ast.BinOp(Int(2), Ast.BinOp(Int(3), Int(1), Ast.Add), Ast.Mul)]), Ok("", ()))
  {
  }

  lemma ParseExampleParenthesesReverseTokens(items: seq<Item>)
    requires items == [Item(Lit(Ast.IntConst(2)), " ")] + ([Item(Op(Ast.Mul), " ")] + ([Item(Op(Ast.LeftParenthesis), "")] + ([Item(Lit(Ast.IntConst(3)), " ")] + ([Item(Op(Ast.Add), " ")] + ([Item(Lit(Ast.IntConst(1)), "")] + ([Item(Op(Ast.RightParenthesis), "")] + []))))))
    ensures ParseTokens(items) == Ok("", Ast.BinOp(Int(2), Ast.BinOp(Int(3), Int(1), Ast.Add), Ast.Mul))
  {
    var t7 := [Item(Op(Ast.RightParenthesis), "")] + [];
    var t6 := [Item(Lit(Ast.IntConst(1)), "")] + t7;
    var t5 := [Item(Op(Ast.Add), " ")] + t6;
    var t4 := [Item(Lit(Ast.IntConst(3)), " ")] + t5;
    var t3 := [Item(Op(Ast.LeftParenthesis), "")] + t4;
    var t2 := [Item(Op(Ast.Mul), " ")] + t3;
    var t1 := [Item(Lit(Ast.IntConst(2)), " ")] + t2;
    ParseExampleParenthesesReverseStep1();
    ParseExampleParenthesesReverseStep2();
    ParseExampleParenthesesReverseStep3();
    ParseExampleParenthesesReverseStep4();
    ParseExampleParenthesesReverseStep5();
    ParseExampleParenthesesReverseStep6();
    ParseExampleParenthesesReverseStep7();
    ParseExampleParenthesesReverseDrain();
    RunCons(Stacks([Ast.Mul, Ast.LeftParenthesis, Ast.Add], [Int(2), Int(3), Int(1)]), Item(Op(Ast.RightParenthesis), ""), [], Stacks([Ast.Mul], [Int(2), Ast.BinOp(Int(3), Int(1), Ast.Add)]));
    RunCons(Stacks([Ast.Mul, Ast.LeftParenthesis, Ast.Add], [Int(2), Int(3)]), Item(Lit(Ast.IntConst(1)), ""), t7, Stacks([Ast.Mul, Ast.LeftParenthesis, Ast.Add], [Int(2), Int(3), Int(1)]));
    RunCons(Stacks([Ast.Mul, Ast.LeftParenthesis], [Int(2), Int(3)]), Item(Op(Ast.Add), " "), t6, Stacks([Ast.Mul, Ast.LeftParenthesis, Ast.Add], [Int(2), Int(3)]));
    RunCons(Stacks([Ast.Mul, Ast.LeftParenthesis], [Int(2)]), Item(Lit(Ast.IntConst(3)), " "), t5, Stacks([Ast.Mul, Ast.LeftParenthesis], [Int(2), Int(3)]));
    RunCons(Stacks([Ast.Mul], [Int(2)]), Item(Op(Ast.LeftParenthesis), ""), t4, Stacks([Ast.Mul, Ast.LeftParenthesis], [Int(2)]));
    RunCons(Stacks([], [Int(2)]), Item(Op(Ast.Mul), " "), t3, Stacks([Ast.Mul], [Int(2)]));
    ParseTokensOf(Item(Lit(Ast.IntConst(2)), " "), t2, Stacks([], [Int(2)]), Stacks([Ast.Mul], [Int(2), Ast.BinOp(Int(3), Int(1), Ast.Add)]), Stacks([], [Ast.BinOp(Int(2), Ast.BinOp(Int(3), Int(1), Ast.Add), Ast.Mul)]));
  }

  /** `4 + 7 + 3` groups to the left: its left operand is `4 + 7`, worth 11. */
  lemma ParseExampleNaturalOrder()
    ensures ParseExpr("4 + 7 + 3") == Ok("", Ast.BinOp(Ast.BinOp(Int(4), Int(7), Ast.Add), Int(3), Ast.Add))
  {
    var items := [Item(Lit(Ast.IntConst(4)), " ")] + ([Item(Op(Ast.Add), " ")] + ([Item(Lit(Ast.IntConst(7)), " ")] + ([Item(Op(Ast.Add), " ")] + ([Item(Lit(Ast.IntConst(3)), "")] + []))));
    ParseExampleNaturalOrderValid(items);
    ParseExampleNaturalOrderText(items);
    ParseExampleNaturalOrderTokens(items);
    ParseIn("4 + 7 + 3", items, Ok("", Ast.BinOp(Ast.BinOp(Int(4), Int(7), Ast.Add), Int(3), Ast.Add)));
  }

  lemma ParseExampleNaturalOrderValid(items: seq<Item>)
    requires items == [Item(Lit(Ast.IntConst(4)), " ")] + ([Item(Op(Ast.Add), " ")] + ([Item(Lit(Ast.IntConst(7)), " ")] + ([Item(Op(Ast.Add), " ")] + ([Item(Lit(Ast.IntConst(3)), "")] + []))))
    ensures ValidItems(items)
  {
    var t5 := [Item(Lit(Ast.IntConst(3)), "")] + [];
    var t4 := [Item(Op(Ast.Add), " ")] + t5;
    var t3 := [Item(Lit(Ast.IntConst(7)), " ")] + t4;
    var t2 := [Item(Op(Ast.Add), " ")] + t3;
    var t1 := [Item(Lit(Ast.IntConst(4)), " ")] + t2;
    ValidCons(Item(Lit(Ast.IntConst(3)), ""), []);
    ValidCons(Item(Op(Ast.Add), " "), t5);
    ValidCons(Item(Lit(Ast.IntConst(7)), " "), t4);
    ValidCons(Item(Op(Ast.Add), " "), t3);
    ValidCons(Item(Lit(Ast.IntConst(4)), " "), t2);
  }

  lemma ParseExampleNaturalOrderPiece5()
    ensures TokenText(Lit(Ast.IntConst(3))) + ("" + "") == "3"
  {
    SmallLiterals();
  }

  lemma ParseExampleNaturalOrderPiece4()
    ensures TokenText(Op(Ast.Add)) + (" " + "3") == "+ 3"
  {
  }

  lemma ParseExampleNaturalOrderPiece3()
    ensures TokenText(Lit(Ast.IntConst(7))) + (" " + "+ 3") == "7 + 3"
  {
    SmallLiterals();
  }

  lemma ParseExampleNaturalOrderPiece2()
    ensures TokenText(Op(Ast.Add)) + (" " + "7 + 3") == "+ 7 + 3"
  {
  }

  lemma ParseExampleNaturalOrderPiece1()
    ensures TokenText(Lit(Ast.IntConst(4))) + (" " + "+ 7 + 3") == "4 + 7 + 3"
  {
    SmallLiterals();
  }

  lemma ParseExampleNaturalOrderText(items: seq<Item>)
    requires items == [Item(Lit(Ast.IntConst(4)), " ")] + ([Item(Op(Ast.Add), " ")] + ([Item(Lit(Ast.IntConst(7)), " ")] + ([Item(Op(Ast.Add), " ")] + ([Item(Lit(Ast.IntConst(3)), "")] + []))))
    ensures Render(items) == "4 + 7 + 3"
  {
    var t5 := [Item(Lit(Ast.IntConst(3)), "")] + [];
    var t4 := [Item(Op(Ast.Add), " ")] + t5;
    var t3 := [Item(Lit(Ast.IntConst(7)), " ")] + t4;
    var t2 := [Item(Op(Ast.Add), " ")] + t3;
    var t1 := [Item(Lit(Ast.IntConst(4)), " ")] + t2;
    ParseExampleNaturalOrderPiece5();
    RenderCons(Item(Lit(Ast.IntConst(3)), ""), [], "", "3");
    ParseExampleNaturalOrderPiece4();
    RenderCons(Item(Op(Ast.Add), " "), t5, "3", "+ 3");
    ParseExampleNaturalOrderPiece3();
    RenderCons(Item(Lit(Ast.IntConst(7)), " "), t4, "+ 3", "7 + 3");
    ParseExampleNaturalOrderPiece2();
    RenderCons(Item(Op(Ast.Add), " "), t3, "7 + 3", "+ 7 + 3");
    ParseExampleNaturalOrderPiece1();
    RenderCons(Item(Lit(Ast.IntConst(4)), " "), t2, "+ 7 + 3", "4 + 7 + 3");
  }

  lemma ParseExampleNaturalOrderStep1()
    ensures Step(Stacks([], []), Lit(Ast.IntConst(4))) == Outcome(Stacks([], [Int(4)]), Ok("", ()))
  {
  }

  lemma ParseExampleNaturalOrderStep2()
    ensures Step(Stacks([], [Int(4)]), Op(Ast.Add)) == Outcome(Stacks([Ast.Add], [Int(4)]), Ok("", ()))
  {
  }

  lemma ParseExampleNaturalOrderStep3()
    ensures Step(Stacks([Ast.Add], [Int(4)]), Lit(Ast.IntConst(7))) == Outcome(Stacks([Ast.Add], [Int(4), Int(7)]), Ok("", ()))
  {
  }

  lemma ParseExampleNaturalOrderStep4()
    ensures Step(Stacks([Ast.Add], [Int(4), Int(7)]), Op(Ast.Add)) == Outcome(Stacks([Ast.Add], [Ast.BinOp(Int(4), Int(7), Ast.Add)]), Ok("", ()))
  {
  }

  lemma ParseExampleNaturalOrderStep5()
    ensures Step(Stacks([Ast.Add], [Ast.BinOp(Int(4), Int(7), Ast.Add)]), Lit(Ast.IntConst(3))) == Outcome(Stacks([Ast.Add], [Ast.BinOp(Int(4), Int(7), Ast.Add), Int(3)]), Ok("", ()))
  {
  }

  lemma ParseExampleNaturalOrderDrain()
    ensures Drain(Stacks([Ast.Add], [Ast.BinOp(Int(4), Int(7), Ast.Add), Int(3)])) == Outcome(Stacks([], [Ast.BinOp(Ast.BinOp(Int(4), Int(7), Ast.Add), Int(3), Ast.Add)]), Ok("", ()))
  {
  }

  lemma ParseExampleNaturalOrderTokens(items: seq<Item>)
    requires items == [Item(Lit(Ast.IntConst(4)), " ")] + ([Item(Op(Ast.Add), " ")] + ([Item(Lit(Ast.IntConst(7)), " ")] + ([Item(Op(Ast.Add), " ")] + ([Item(Lit(Ast.IntConst(3)), "")] + []))))
    ensures ParseTokens(items) == Ok("", Ast.BinOp(Ast.BinOp(Int(4), Int(7), Ast.Add), Int(3), Ast.Add))
  {
    var t5 := [Item(Lit(Ast.IntConst(3)), "")] + [];
    var t4 := [Item(Op(Ast.Add), " ")] + t5;
    var t3 := [Item(Lit(Ast.IntConst(7)), " ")] + t4;
    var t2 := [Item(Op(Ast.Add), " ")] + t3;
    var t1 := [Item(Lit(Ast.IntConst(4)), " ")] + t2;
    ParseExampleNaturalOrderStep1();
    ParseExampleNaturalOrderStep2();
    ParseExampleNaturalOrderStep3();
    ParseExampleNaturalOrderStep4();
    ParseExampleNaturalOrderStep5();
    ParseExampleNaturalOrderDrain();
    RunCons(Stacks([Ast.Add], [Ast.BinOp(Int(4), Int(7), Ast.Add)]), Item(Lit(Ast.IntConst(3)), ""), [], Stacks([Ast.Add], [Ast.BinOp(Int(4), Int(7), Ast.Add), Int(3)]));
    RunCons(Stacks([Ast.Add], [Int(4), Int(7)]), Item(Op(Ast.Add), " "), t5, Stacks([Ast.Add], [Ast.BinOp(Int(4), Int(7), Ast.Add)]));
    RunCons(Stacks([Ast.Add], [Int(4)]), Item(Lit(Ast.IntConst(7)), " "), t4, Stacks([Ast.Add], [Int(4), Int(7)]));
    RunCons(Stacks([], [Int(4)]), Item(Op(Ast.Add), " "), t3, Stacks([Ast.Add], [Int(4)]));
    ParseTokensOf(Item(Lit(Ast.IntConst(4)), " "), t2, Stacks([], [Int(4)]), Stacks([Ast.Add], [Ast.BinOp(Int(4), Int(7), Ast.Add), Int(3)]), Stacks([], [Ast.BinOp(Ast.BinOp(Int(4), Int(7), Ast.Add), Int(3), Ast.Add)]));
  }

  /** `4 + 2 * 3`: the left operand of the sum is 4. */
  lemma ParseExampleMulPriority()
    ensures ParseExpr("4 + 2 * 3") == Ok("", Ast.BinOp(Int(4), Ast.BinOp(Int(2), Int(3), Ast.Mul), Ast.Add))
  {
    var items := [Item(Lit(Ast.IntConst(4)), " ")] + ([Item(Op(Ast.Add), " ")] + ([Item(Lit(Ast.IntConst(2)), " ")] + ([Item(Op(Ast.Mul), " ")] + ([Item(Lit(Ast.IntConst(3)), "")] + []))));
    ParseExampleMulPriorityValid(items);
    ParseExampleMulPriorityText(items);
    ParseExampleMulPriorityTokens(items);
    ParseIn("4 + 2 * 3", items, Ok("", Ast.BinOp(Int(4), Ast.BinOp(Int(2), Int(3), Ast.Mul), Ast.Add)));
  }

  lemma ParseExampleMulPriorityValid(items: seq<Item>)
    requires items == [Item(Lit(Ast.IntConst(4)), " ")] + ([Item(Op(Ast.Add), " ")] + ([Item(Lit(Ast.IntConst(2)), " ")] + ([Item(Op(Ast.Mul), " ")] + ([Item(Lit(Ast.IntConst(3)), "")] + []))))
    ensures ValidItems(items)
  {
    var t5 := [Item(Lit(Ast.IntConst(3)), "")] + [];
    var t4 := [Item(Op(Ast.Mul), " ")] + t5;
    var t3 := [Item(Lit(Ast.IntConst(2)), " ")] + t4;
    var t2 := [Item(Op(Ast.Add), " ")] + t3;
    var t1 := [Item(Lit(Ast.IntConst(4)), " ")] + t2;
    ValidCons(Item(Lit(Ast.IntConst(3)), ""), []);
    ValidCons(Item(Op(Ast.Mul), " "), t5);
    ValidCons(Item(Lit(Ast.IntConst(2)), " "), t4);
    ValidCons(Item(Op(Ast.Add), " "), t3);
    ValidCons(Item(Lit(Ast.IntConst(4)), " "), t2);
  }

  lemma ParseExampleMulPriorityPiece5()
    ensures TokenText(Lit(Ast.IntConst(3))) + ("" + "") == "3"
  {
    SmallLiterals();
  }

  lemma ParseExampleMulPriorityPiece4()
    ensures TokenText(Op(Ast.Mul)) + (" " + "3") == "* 3"
  {
  }

  lemma ParseExampleMulPriorityPiece3()
    ensures TokenText(Lit(Ast.IntConst(2))) + (" " + "* 3") == "2 * 3"
  {
    SmallLiterals();
  }

  lemma ParseExampleMulPriorityPiece2()
    ensures TokenText(Op(Ast.Add)) + (" " + "2 * 3") == "+ 2 * 3"
  {
  }

  lemma ParseExampleMulPriorityPiece1()
    ensures TokenText(Lit(Ast.IntConst(4))) + (" " + "+ 2 * 3") == "4 + 2 * 3"
  {
    SmallLiterals();
  }

  lemma ParseExampleMulPriorityText(items: seq<Item>)
    requires items == [Item(Lit(Ast.IntConst(4)), " ")] + ([Item(Op(Ast.Add), " ")] + ([Item(Lit(Ast.IntConst(2)), " ")] + ([Item(Op(Ast.Mul), " ")] + ([Item(Lit(Ast.IntConst(3)), "")] + []))))
    ensures Render(items) == "4 + 2 * 3"
  {
    var t5 := [Item(Lit(Ast.IntConst(3)), "")] + [];
    var t4 := [Item(Op(Ast.Mul), " ")] + t5;
    var t3 := [Item(Lit(Ast.IntConst(2)), " ")] + t4;
    var t2 := [Item(Op(Ast.Add), " ")] + t3;
    var t1 := [Item(Lit(Ast.IntConst(4)), " ")] + t2;
    ParseExampleMulPriorityPiece5();
    RenderCons(Item(Lit(Ast.IntConst(3)), ""), [], "", "3");
    ParseExampleMulPriorityPiece4();
    RenderCons(Item(Op(Ast.Mul), " "), t5, "3", "* 3");
    ParseExampleMulPriorityPiece3();
    RenderCons(Item(Lit(Ast.IntConst(2)), " "), t4, "* 3", "2 * 3");
    ParseExampleMulPriorityPiece2();
    RenderCons(Item(Op(Ast.Add), " "), t3, "2 * 3", "+ 2 * 3");
    ParseExampleMulPriorityPiece1();
    RenderCons(Item(Lit(Ast.IntConst(4)), " "), t2, "+ 2 * 3", "4 + 2 * 3");
  }

  lemma ParseExampleMulPriorityStep1()
    ensures Step(Stacks([], []), Lit(Ast.IntConst(4))) == Outcome(Stacks([], [Int(4)]), Ok("", ()))
  {
  }

  lemma ParseExampleMulPriorityStep2()
    ensures Step(Stacks([], [Int(4)]), Op(Ast.Add)) == Outcome(Stacks([Ast.Add], [Int(4)]), Ok("", ()))
  {
  }

  lemma ParseExampleMulPriorityStep3()
    ensures Step(Stacks([Ast.Add], [Int(4)]), Lit(Ast.IntConst(2))) == Outcome(Stacks([Ast.Add], [Int(4), Int(2)]), Ok("", ()))
  {
  }

  lemma ParseExampleMulPriorityStep4()
    ensures Step(Stacks([Ast.Add], [Int(4), Int(2)]), Op(Ast.Mul)) == Outcome(Stacks([Ast.Add, Ast.Mul], [Int(4), Int(2)]), Ok("", ()))
  {
  }

  lemma ParseExampleMulPriorityStep5()
    ensures Step(Stacks([Ast.Add, Ast.Mul], [Int(4), Int(2)]), Lit(Ast.IntConst(3))) == Outcome(Stacks([Ast.Add, Ast.Mul], [Int(4), Int(2), Int(3)]), Ok("", ()))
  {
  }

  lemma ParseExampleMulPriorityDrain()
    ensures Drain(Stacks([Ast.Add, Ast.Mul], [Int(4), Int(2), Int(3)])) == Outcome(Stacks([], [Ast.BinOp(Int(4), Ast.BinOp(Int(2), Int(3), Ast.Mul), Ast.Add)]), Ok("", ()))
  {
  }

  lemma ParseExampleMulPriorityTokens(items: seq<Item>)
    requires items == [Item(Lit(Ast.IntConst(4)), " ")] + ([Item(Op(Ast.Add), " ")] + ([Item(Lit(Ast.IntConst(2)), " ")] + ([Item(Op(Ast.Mul), " ")] + ([Item(Lit(Ast.IntConst(3)), "")] + []))))
    ensures ParseTokens(items) == Ok("", Ast.BinOp(Int(4), Ast.BinOp(Int(2), Int(3), Ast.Mul), Ast.Add))
  {
    var t5 := [Item(Lit(Ast.IntConst(3)), "")] + [];
    var t4 := [Item(Op(Ast.Mul), " ")] + t5;
    var t3 := [Item(Lit(Ast.IntConst(2)), " ")] + t4;
    var t2 := [Item(Op(Ast.Add), " ")] + t3;
    var t1 := [Item(Lit(Ast.IntConst(4)), " ")] + t2;
    ParseExampleMulPriorityStep1();
    ParseExampleMulPriorityStep2();
    ParseExampleMulPriorityStep3();
    ParseExampleMulPriorityStep4();
    ParseExampleMulPriorityStep5();
    ParseExampleMulPriorityDrain();
    RunCons(Stacks([Ast.Add, Ast.Mul], [Int(4), Int(2)]), Item(Lit(Ast.IntConst(3)), ""), [], Stacks([Ast.Add, Ast.Mul], [Int(4), Int(2), Int(3)]));
    RunCons(Stacks([Ast.Add], [Int(4), Int(2)]), Item(Op(Ast.Mul), " "), t5, Stacks([Ast.Add, Ast.Mul], [Int(4), Int(2)]));
    RunCons(Stacks([Ast.Add], [Int(4)]), Item(Lit(Ast.IntConst(2)), " "), t4, Stacks([Ast.Add], [Int(4), Int(2)]));
    RunCons(Stacks([], [Int(4)]), Item(Op(Ast.Add), " "), t3, Stacks([Ast.Add], [Int(4)]));
    ParseTokensOf(Item(Lit(Ast.IntConst(4)), " "), t2, Stacks([], [Int(4)]), Stacks([Ast.Add, Ast.Mul], [Int(4), Int(2), Int(3)]), Stacks([], [Ast.BinOp(Int(4), Ast.BinOp(Int(2), Int(3), Ast.Mul), Ast.Add)]));
  }

  /** `2 * 3 + 4`: the left operand of the sum is `2 * 3`, worth 6. */
  lemma ParseExampleMulNaturalPriority()
    ensures ParseExpr("2 * 3 + 4") == Ok("", Ast.BinOp(Ast.BinOp(Int(2), Int(3), Ast.Mul), Int(4), Ast.Add))
  {
    var items := [Item(Lit(Ast.IntConst(2)), " ")] + ([Item(Op(Ast.Mul), " ")] + ([Item(Lit(Ast.IntConst(3)), " ")] + ([Item(Op(Ast.Add), " ")] + ([Item(Lit(Ast.IntConst(4)), "")] + []))));
    ParseExampleMulNaturalPriorityValid(items);
    ParseExampleMulNaturalPriorityText(items);
    ParseExampleMulNaturalPriorityTokens(items);
    ParseIn("2 * 3 + 4", items, Ok("", Ast.BinOp(Ast.BinOp(Int(2), Int(3), Ast.Mul), Int(4), Ast.Add)));
  }

  lemma ParseExampleMulNaturalPriorityValid(items: seq<Item>)
    requires items == [Item(Lit(Ast.IntConst(2)), " ")] + ([Item(Op(Ast.Mul), " ")] + ([Item(Lit(Ast.IntConst(3)), " ")] + ([Item(Op(Ast.Add), " ")] + ([Item(Lit(Ast.IntConst(4)), "")] + []))))
    ensures ValidItems(items)
  {
    var t5 := [Item(Lit(Ast.IntConst(4)), "")] + [];
    var t4 := [Item(Op(Ast.Add), " ")] + t5;
    var t3 := [Item(Lit(Ast.IntConst(3)), " ")] + t4;
    var t2 := [Item(Op(Ast.Mul), " ")] + t3;
    var t1 := [Item(Lit(Ast.IntConst(2)), " ")] + t2;
    ValidCons(Item(Lit(Ast.IntConst(4)), ""), []);
    ValidCons(Item(Op(Ast.Add), " "), t5);
    ValidCons(Item(Lit(Ast.IntConst(3)), " "), t4);
    ValidCons(Item(Op(Ast.Mul), " "), t3);
    ValidCons(Item(Lit(Ast.IntConst(2)), " "), t2);
  }

  lemma ParseExampleMulNaturalPriorityPiece5()
    ensures TokenText(Lit(Ast.IntConst(4))) + ("" + "") == "4"
  {
    SmallLiterals();
  }

  lemma ParseExampleMulNaturalPriorityPiece4()
    ensures TokenText(Op(Ast.Add)) + (" " + "4") == "+ 4"
  {
  }

  lemma ParseExampleMulNaturalPriorityPiece3()
    ensures TokenText(Lit(Ast.IntConst(3))) + (" " + "+ 4") == "3 + 4"
  {
    SmallLiterals();
  }

  lemma ParseExampleMulNaturalPriorityPiece2()
    ensures TokenText(Op(Ast.Mul)) + (" " + "3 + 4") == "* 3 + 4"
  {
  }

  lemma ParseExampleMulNaturalPriorityPiece1()
    ensures TokenText(Lit(Ast.IntConst(2))) + (" " + "* 3 + 4") == "2 * 3 + 4"
  {
    SmallLiterals();
  }

  lemma ParseExampleMulNaturalPriorityText(items: seq<Item>)
    requires items == [Item(Lit(Ast.IntConst(2)), " ")] + ([Item(Op(Ast.Mul), " ")] + ([Item(Lit(Ast.IntConst(3)), " ")] + ([Item(Op(Ast.Add), " ")] + ([Item(Lit(Ast.IntConst(4)), "")] + []))))
    ensures Render(items) == "2 * 3 + 4"
  {
    var t5 := [Item(Lit(Ast.IntConst(4)), "")] + [];
    var t4 := [Item(Op(Ast.Add), " ")] + t5;
    var t3 := [Item(Lit(Ast.IntConst(3)), " ")] + t4;
    var t2 := [Item(Op(Ast.Mul), " ")] + t3;
    var t1 := [Item(Lit(Ast.IntConst(2)), " ")] + t2;
    ParseExampleMulNaturalPriorityPiece5();
    RenderCons(Item(Lit(Ast.IntConst(4)), ""), [], "", "4");
    ParseExampleMulNaturalPriorityPiece4();
    RenderCons(Item(Op(Ast.Add), " "), t5, "4", "+ 4");
    ParseExampleMulNaturalPriorityPiece3();
    RenderCons(Item(Lit(Ast.IntConst(3)), " "), t4, "+ 4", "3 + 4");
    ParseExampleMulNaturalPriorityPiece2();
    RenderCons(Item(Op(Ast.Mul), " "), t3, "3 + 4", "* 3 + 4");
    ParseExampleMulNaturalPriorityPiece1();
    RenderCons(Item(Lit(Ast.IntConst(2)), " "), t2, "* 3 + 4", "2 * 3 + 4");
  }

  lemma ParseExampleMulNaturalPriorityStep1()
    ensures Step(Stacks([], []), Lit(Ast.IntConst(2))) == Outcome(Stacks([], [Int(2)]), Ok("", ()))
  {
  }

  lemma ParseExampleMulNaturalPriorityStep2()
    ensures Step(Stacks([], [Int(2)]), Op(Ast.Mul)) == Outcome(Stacks([Ast.Mul], [Int(2)]), Ok("", ()))
  {
  }

  lemma ParseExampleMulNaturalPriorityStep3()
    ensures Step(Stacks([Ast.Mul], [Int(2)]), Lit(Ast.IntConst(3))) == Outcome(Stacks([Ast.Mul], [Int(2), Int(3)]), Ok("", ()))
  {
  }

  lemma ParseExampleMulNaturalPriorityStep4()
    ensures Step(Stacks([Ast.Mul], [Int(2), Int(3)]), Op(Ast.Add)) == Outcome(Stacks([Ast.Add], [Ast.BinOp(Int(2), Int(3), Ast.Mul)]), Ok("", ()))
  {
  }

  lemma ParseExampleMulNaturalPriorityStep5()
    ensures Step(Stacks([Ast.Add], [Ast.BinOp(Int(2), Int(3), Ast.Mul)]), Lit(Ast.IntConst(4))) == Outcome(Stacks([Ast.Add], [Ast.BinOp(Int(2), Int(3), Ast.Mul), Int(4)]), Ok("", ()))
  {
  }

  lemma ParseExampleMulNaturalPriorityDrain()
    ensures Drain(Stacks([Ast.Add], [Ast.BinOp(Int(2), Int(3), Ast.Mul), Int(4)])) == Outcome(Stacks([], [Ast.BinOp(Ast.BinOp(Int(2), Int(3), Ast.Mul), Int(4), Ast.Add)]), Ok("", ()))
  {
  }

  lemma ParseExampleMulNaturalPriorityTokens(items: seq<Item>)
    requires items == [Item(Lit(Ast.IntConst(2)), " ")] + ([Item(Op(Ast.Mul), " ")] + ([Item(Lit(Ast.IntConst(3)), " ")] + ([Item(Op(Ast.Add), " ")] + ([Item(Lit(Ast.IntConst(4)), "")] + []))))
    ensures ParseTokens(items) == Ok("", Ast.BinOp(Ast.BinOp(Int(2), Int(3), Ast.Mul), Int(4), Ast.Add))
  {
    var t5 := [Item(Lit(Ast.IntConst(4)), "")] + [];
    var t4 := [Item(Op(Ast.Add), " ")] + t5;
    var t3 := [Item(Lit(Ast.IntConst(3)), " ")] + t4;
    var t2 := [Item(Op(Ast.Mul), " ")] + t3;
    var t1 := [Item(Lit(Ast.IntConst(2)), " ")] + t2;
    ParseExampleMulNaturalPriorityStep1();
    ParseExampleMulNaturalPriorityStep2();
    ParseExampleMulNaturalPriorityStep3();
    ParseExampleMulNaturalPriorityStep4();
    ParseExampleMulNaturalPriorityStep5();
    ParseExampleMulNaturalPriorityDrain();
    RunCons(Stacks([Ast.Add], [Ast.BinOp(Int(2), Int(3), Ast.Mul)]), Item(Lit(Ast.IntConst(4)), ""), [], Stacks([Ast.Add], [Ast.BinOp(Int(2), Int(3), Ast.Mul), Int(4)]));
    RunCons(Stacks([Ast.Mul], [Int(2), Int(3)]), Item(Op(Ast.Add), " "), t5, Stacks([Ast.Add], [Ast.BinOp(Int(2), Int(3), Ast.Mul)]));
    RunCons(Stacks([Ast.Mul], [Int(2)]), Item(Lit(Ast.IntConst(3)), " "), t4, Stacks([Ast.Mul], [Int(2), Int(3)]));
    RunCons(Stacks([], [Int(2)]), Item(Op(Ast.Mul), " "), t3, Stacks([Ast.Mul], [Int(2)]));
    ParseTokensOf(Item(Lit(Ast.IntConst(2)), " "), t2, Stacks([], [Int(2)]), Stacks([Ast.Add], [Ast.BinOp(Int(2), Int(3), Ast.Mul), Int(4)]), Stacks([], [Ast.BinOp(Ast.BinOp(Int(2), Int(3), Ast.Mul), Int(4), Ast.Add)]));
  }

  /** `1 +` lacks the right operand of the sum. */
  lemma ParseExampleMissingOperand()
    ensures ParseExpr("1 +") == Err(Error(InvalidBinary))
  {
    var items := [Item(Lit(Ast.IntConst(1)), " ")] + ([Item(Op(Ast.Add), "")] + []);
    ParseExampleMissingOperandValid(items);
    ParseExampleMissingOperandText(items);
    ParseExampleMissingOperandTokens(items);
    ParseIn("1 +", items, Err(Error(InvalidBinary)));
  }

  lemma ParseExampleMissingOperandValid(items: seq<Item>)
    requires items == [Item(Lit(Ast.IntConst(1)), " ")] + ([Item(Op(Ast.Add), "")] + [])
    ensures ValidItems(items)
  {
    var t2 := [Item(Op(Ast.Add), "")] + [];
    var t1 := [Item(Lit(Ast.IntConst(1)), " ")] + t2;
    ValidCons(Item(Op(Ast.Add), ""), []);
    ValidCons(Item(Lit(Ast.IntConst(1)), " "), t2);
  }

  lemma ParseExampleMissingOperandPiece2()
    ensures TokenText(Op(Ast.Add)) + ("" + "") == "+"
  {
  }

  lemma ParseExampleMissingOperandPiece1()
    ensures TokenText(Lit(Ast.IntConst(1))) + (" " + "+") == "1 +"
  {
    SmallLiterals();
  }

  lemma ParseExampleMissingOperandText(items: seq<Item>)
    requires items == [Item(Lit(Ast.IntConst(1)), " ")] + ([Item(Op(Ast.Add), "")] + [])
    ensures Render(items) == "1 +"
  {
    var t2 := [Item(Op(Ast.Add), "")] + [];
    var t1 := [Item(Lit(Ast.IntConst(1)), " ")] + t2;
    ParseExampleMissingOperandPiece2();
    RenderCons(Item(Op(Ast.Add), ""), [], "", "+");
    ParseExampleMissingOperandPiece1();
    RenderCons(Item(Lit(Ast.IntConst(1)), " "), t2, "+", "1 +");
  }

  lemma ParseExampleMissingOperandStep1()
    ensures Step(Stacks([], []), Lit(Ast.IntConst(1))) == Outcome(Stacks([], [Int(1)]), Ok("", ()))
  {
  }

  lemma ParseExampleMissingOperandStep2()
    ensures Step(Stacks([], [Int(1)]), Op(Ast.Add)) == Outcome(Stacks([Ast.Add], [Int(1)]), Ok("", ()))
  {
  }

  lemma ParseExampleMissingOperandDrain()
    ensures Drain(Stacks([Ast.Add], [Int(1)])).result.Err? || Drain(Stacks([Ast.Add], [Int(1)])).stacks.output == []
  {
  }

  lemma ParseExampleMissingOperandTokens(items: seq<Item>)
    requires items == [Item(Lit(Ast.IntConst(1)), " ")] + ([Item(Op(Ast.Add), "")] + [])
    ensures ParseTokens(items) == Err(Error(InvalidBinary))
  {
    var t2 := [Item(Op(Ast.Add), "")] + [];
    var t1 := [Item(Lit(Ast.IntConst(1)), " ")] + t2;
    ParseExampleMissingOperandStep1();
    ParseExampleMissingOperandStep2();
    ParseExampleMissingOperandDrain();
    RunCons(Stacks([], [Int(1)]), Item(Op(Ast.Add), ""), [], Stacks([Ast.Add], [Int(1)]));
    ParseTokensFails(Item(Lit(Ast.IntConst(1)), " "), t2, Stacks([], [Int(1)]), Stacks([Ast.Add], [Int(1)]), "");
  }

  /** `1 2` is accepted, and its last operand is the result. */
  lemma ParseExampleTwoOperands()
    ensures ParseExpr("1 2") == Ok("", Int(2))
  {
    var items := [Item(Lit(Ast.IntConst(1)), " ")] + ([Item(Lit(Ast.IntConst(2)), "")] + []);
    ParseExampleTwoOperandsValid(items);
    ParseExampleTwoOperandsText(items);
    ParseExampleTwoOperandsTokens(items);
    ParseIn("1 2", items, Ok("", Int(2)));
  }

  lemma ParseExampleTwoOperandsValid(items: seq<Item>)
    requires items == [Item(Lit(Ast.IntConst(1)), " ")] + ([Item(Lit(Ast.IntConst(2)), "")] + [])
    ensures ValidItems(items)
  {
    var t2 := [Item(Lit(Ast.IntConst(2)), "")] + [];
    var t1 := [Item(Lit(Ast.IntConst(1)), " ")] + t2;
    ValidCons(Item(Lit(Ast.IntConst(2)), ""), []);
    ValidCons(Item(Lit(Ast.IntConst(1)), " "), t2);
  }

  lemma ParseExampleTwoOperandsPiece2()
    ensures TokenText(Lit(Ast.IntConst(2))) + ("" + "") == "2"
  {
    SmallLiterals();
  }

  lemma ParseExampleTwoOperandsPiece1()
    ensures TokenText(Lit(Ast.IntConst(1))) + (" " + "2") == "1 2"
  {
    SmallLiterals();
  }

  lemma ParseExampleTwoOperandsText(items: seq<Item>)
    requires items == [Item(Lit(Ast.IntConst(1)), " ")] + ([Item(Lit(Ast.IntConst(2)), "")] + [])
    ensures Render(items) == "1 2"
  {
    var t2 := [Item(Lit(Ast.IntConst(2)), "")] + [];
    var t1 := [Item(Lit(Ast.IntConst(1)), " ")] + t2;
    ParseExampleTwoOperandsPiece2();
    RenderCons(Item(Lit(Ast.IntConst(2)), ""), [], "", "2");
    ParseExampleTwoOperandsPiece1();
    RenderCons(Item(Lit(Ast.IntConst(1)), " "), t2, "2", "1 2");
  }

  lemma ParseExampleTwoOperandsStep1()
    ensures Step(Stacks([], []), Lit(Ast.IntConst(1))) == Outcome(Stacks([], [Int(1)]), Ok("", ()))
  {
  }

  lemma ParseExampleTwoOperandsStep2()
    ensures Step(Stacks([], [Int(1)]), Lit(Ast.IntConst(2))) == Outcome(Stacks([], [Int(1), Int(2)]), Ok("", ()))
  {
  }

  lemma ParseExampleTwoOperandsDrain()
    ensures Drain(Stacks([], [Int(1), Int(2)])) == Outcome(Stacks([], [Int(1), Int(2)]), Ok("", ()))
  {
  }

  lemma ParseExampleTwoOperandsTokens(items: seq<Item>)
    requires items == [Item(Lit(Ast.IntConst(1)), " ")] + ([Item(Lit(Ast.IntConst(2)), "")] + [])
    ensures ParseTokens(items) == Ok("", Int(2))
  {
    var t2 := [Item(Lit(Ast.IntConst(2)), "")] + [];
    var t1 := [Item(Lit(Ast.IntConst(1)), " ")] + t2;
    ParseExampleTwoOperandsStep1();
    ParseExampleTwoOperandsStep2();
    ParseExampleTwoOperandsDrain();
    RunCons(Stacks([], [Int(1)]), Item(Lit(Ast.IntConst(2)), ""), [], Stacks([], [Int(1), Int(2)]));
    ParseTokensOf(Item(Lit(Ast.IntConst(1)), " "), t2, Stacks([], [Int(1)]), Stacks([], [Int(1), Int(2)]), Stacks([], [Int(1), Int(2)]));
  }

  /** In `1 + 2 )` the `)` finds no `(`: the reductions it makes empty the output. */
  lemma ParseExampleUnmatchedParen()
    ensures ParseExpr("1 + 2 )") == Err(Error(InvalidBinary))
  {
    var items := [Item(Lit(Ast.IntConst(1)), " ")] + ([Item(Op(Ast.Add), " ")] + ([Item(Lit(Ast.IntConst(2)), " ")] + ([Item(Op(Ast.RightParenthesis), "")] + [])));
    ParseExampleUnmatchedParenValid(items);
    ParseExampleUnmatchedParenText(items);
    ParseExampleUnmatchedParenTokens(items);
    ParseIn("1 + 2 )", items, Err(Error(InvalidBinary)));
  }

  lemma ParseExampleUnmatchedParenValid(items: seq<Item>)
    requires items == [Item(Lit(Ast.IntConst(1)), " ")] + ([Item(Op(Ast.Add), " ")] + ([Item(Lit(Ast.IntConst(2)), " ")] + ([Item(Op(Ast.RightParenthesis), "")] + [])))
    ensures ValidItems(items)
  {
    var t4 := [Item(Op(Ast.RightParenthesis), "")] + [];
    var t3 := [Item(Lit(Ast.IntConst(2)), " ")] + t4;
    var t2 := [Item(Op(Ast.Add), " ")] + t3;
    var t1 := [Item(Lit(Ast.IntConst(1)), " ")] + t2;
    ValidCons(Item(Op(Ast.RightParenthesis), ""), []);
    ValidCons(Item(Lit(Ast.IntConst(2)), " "), t4);
    ValidCons(Item(Op(Ast.Add), " "), t3);
    ValidCons(Item(Lit(Ast.IntConst(1)), " "), t2);
  }

  lemma ParseExampleUnmatchedParenPiece4()
    ensures TokenText(Op(Ast.RightParenthesis)) + ("" + "") == ")"
  {
  }

  lemma ParseExampleUnmatchedParenPiece3()
    ensures TokenText(Lit(Ast.IntConst(2))) + (" " + ")") == "2 )"
  {
    SmallLiterals();
  }

  lemma ParseExampleUnmatchedParenPiece2()
    ensures TokenText(Op(Ast.Add)) + (" " + "2 )") == "+ 2 )"
  {
  }

  lemma ParseExampleUnmatchedParenPiece1()
    ensures TokenText(Lit(Ast.IntConst(1))) + (" " + "+ 2 )") == "1 + 2 )"
  {
    SmallLiterals();
  }

  lemma ParseExampleUnmatchedParenText(items: seq<Item>)
    requires items == [Item(Lit(Ast.IntConst(1)), " ")] + ([Item(Op(Ast.Add), " ")] + ([Item(Lit(Ast.IntConst(2)), " ")] + ([Item(Op(Ast.RightParenthesis), "")] + [])))
    ensures Render(items) == "1 + 2 )"
  {
    var t4 := [Item(Op(Ast.RightParenthesis), "")] + [];
    var t3 := [Item(Lit(Ast.IntConst(2)), " ")] + t4;
    var t2 := [Item(Op(Ast.Add), " ")] + t3;
    var t1 := [Item(Lit(Ast.IntConst(1)), " ")] + t2;
    ParseExampleUnmatchedParenPiece4();
    RenderCons(Item(Op(Ast.RightParenthesis), ""), [], "", ")");
    ParseExampleUnmatchedParenPiece3();
    RenderCons(Item(Lit(Ast.IntConst(2)), " "), t4, ")", "2 )");
    ParseExampleUnmatchedParenPiece2();
    RenderCons(Item(Op(Ast.Add), " "), t3, "2 )", "+ 2 )");
    ParseExampleUnmatchedParenPiece1();
    RenderCons(Item(Lit(Ast.IntConst(1)), " "), t2, "+ 2 )", "1 + 2 )");
  }

  lemma ParseExampleUnmatchedParenStep1()
    ensures Step(Stacks([], []), Lit(Ast.IntConst(1))) == Outcome(Stacks([], [Int(1)]), Ok("", ()))
  {
  }

  lemma ParseExampleUnmatchedParenStep2()
    ensures Step(Stacks([], [Int(1)]), Op(Ast.Add)) == Outcome(Stacks([Ast.Add], [Int(1)]), Ok("", ()))
  {
  }

  lemma ParseExampleUnmatchedParenStep3()
    ensures Step(Stacks([Ast.Add], [Int(1)]), Lit(Ast.IntConst(2))) == Outcome(Stacks([Ast.Add], [Int(1), Int(2)]), Ok("", ()))
  {
  }

  lemma ParseExampleUnmatchedParenStep4()
    ensures Step(Stacks([Ast.Add], [Int(1), Int(2)]), Op(Ast.RightParenthesis)) == Outcome(Stacks([], []), Err(Error(InvalidBinary)))
  {
  }

  lemma ParseExampleUnmatchedParenDrain()
    ensures Drain(Stacks([], [])).result.Err? || Drain(Stacks([], [])).stacks.output == []
  {
  }

  lemma ParseExampleUnmatchedParenTokens(items: seq<Item>)
    requires items == [Item(Lit(Ast.IntConst(1)), " ")] + ([Item(Op(Ast.Add), " ")] + ([Item(Lit(Ast.IntConst(2)), " ")] + ([Item(Op(Ast.RightParenthesis), "")] + [])))
    ensures ParseTokens(items) == Err(Error(InvalidBinary))
  {
    var t4 := [Item(Op(Ast.RightParenthesis), "")] + [];
    var t3 := [Item(Lit(Ast.IntConst(2)), " ")] + t4;
    var t2 := [Item(Op(Ast.Add), " ")] + t3;
    var t1 := [Item(Lit(Ast.IntConst(1)), " ")] + t2;
    ParseExampleUnmatchedParenStep1();
    ParseExampleUnmatchedParenStep2();
    ParseExampleUnmatchedParenStep3();
    ParseExampleUnmatchedParenStep4();
    ParseExampleUnmatchedParenDrain();
    RunStops(Stacks([Ast.Add], [Int(1), Int(2)]), Item(Op(Ast.RightParenthesis), ""), [], Stacks([], []));
    RunCons(Stacks([Ast.Add], [Int(1)]), Item(Lit(Ast.IntConst(2)), " "), t4, Stacks([Ast.Add], [Int(1), Int(2)]));
    RunCons(Stacks([], [Int(1)]), Item(Op(Ast.Add), " "), t3, Stacks([Ast.Add], [Int(1)]));
    ParseTokensFails(Item(Lit(Ast.IntConst(1)), " "), t2, Stacks([], [Int(1)]), Stacks([], []), Render(t4));
  }

  /** A lone `)` is no expression. */
  lemma ParseExampleLeadingParen()
    ensures ParseExpr(")") == Err(Error(NoExpression))
  {
    var items := [Item(Op(Ast.RightParenthesis), "")] + [];
    ParseExampleLeadingParenValid(items);
    ParseExampleLeadingParenText(items);
    ParseExampleLeadingParenTokens(items);
    ParseIn(")", items, Err(Error(NoExpression)));
  }

  lemma ParseExampleLeadingParenValid(items: seq<Item>)
    requires items == [Item(Op(Ast.RightParenthesis), "")] + []
    ensures ValidItems(items)
  {
    var t1 := [Item(Op(Ast.RightParenthesis), "")] + [];
    ValidCons(Item(Op(Ast.RightParenthesis), ""), []);
  }

  lemma ParseExampleLeadingParenPiece1()
    ensures TokenText(Op(Ast.RightParenthesis)) + ("" + "") == ")"
  {
  }

  lemma ParseExampleLeadingParenText(items: seq<Item>)
    requires items == [Item(Op(Ast.RightParenthesis), "")] + []
    ensures Render(items) == ")"
  {
    var t1 := [Item(Op(Ast.RightParenthesis), "")] + [];
    ParseExampleLeadingParenPiece1();
    RenderCons(Item(Op(Ast.RightParenthesis), ""), [], "", ")");
  }

  lemma ParseExampleLeadingParenStep1()
    ensures Step(Stacks([], []), Op(Ast.RightParenthesis)) == Outcome(Stacks([], []), Err(Error(InvalidBinary)))
  {
  }

  lemma ParseExampleLeadingParenTokens(items: seq<Item>)
    requires items == [Item(Op(Ast.RightParenthesis), "")] + []
    ensures ParseTokens(items) == Err(Error(NoExpression))
  {
    var t1 := [Item(Op(Ast.RightParenthesis), "")] + [];
    ParseExampleLeadingParenStep1();
  }

  /** `fn(2)` is no expression: the call leaves its `)` behind, that `)`
      is read as an operator, and reducing toward a `(` that is not there
      pops the call node, so the output ends empty. */
  lemma ParseExampleCallWithArgs()
    ensures ParseExpr("fn(2)") == Err(Error(InvalidBinary))
  {
    CallProps.FunctionCallExampleOne();
    assert "fn(2)"[0] == 'f';
    CallWithArgsParse("fn(2)", Ast.FunctionCall("fn", [Int(2)]));
  }

  /** An expression made of one call whose parse leaves only `)`. */
  lemma CallWithArgsParse(input: string, call: Ast.FunctionCall)
    requires input != [] && !Tokens.IsOperator(input[0]) && Tokens.NoLeadingWhitespace(input)
    requires C.FunctionCall(input) == Ok(")", call)
    ensures ParseExpr(input) == Err(Error(InvalidBinary))
  {
    Tokens.MaybeConsumeWhitespacesNone(input);
    Tokens.MaybeConsumeWhitespacesNone(")");
    CallOperandAt(Stacks([], []), input, call, ")");
    OperandTokenAt(Stacks([], []), input, Stacks([], [Ast.Call(call)]), ")");
    ParseExampleCallWithArgsLoop(Ast.Call(call));
  }

  lemma CallOperandAt(s: Stacks, input: string, call: Ast.FunctionCall, rest: string)
    requires C.FunctionCall(input) == Ok(rest, call)
    ensures OperandStep(s, input) == Outcome(Stacks(s.operators, s.output + [Ast.Call(call)]), Ok(rest, ()))
  {
    ShuntingYardProps.OperandCallFirst(input);
  }

  lemma OperandTokenAt(s: Stacks, input: string, s': Stacks, next: string)
    requires input != [] && !Tokens.IsOperator(input[0])
    requires Tokens.MaybeConsumeExtra(input).rest == input
    requires OperandStep(s, input) == Outcome(s', Ok(next, ()))
    requires Tokens.MaybeConsumeExtra(next).rest == next
    ensures HandleTokenStep(s, input) == Outcome(s', Ok(next, ()))
  {
  }

  lemma ParseExampleCallWithArgsLoop(call: Ast.Instr)
    ensures TokenLoop(Stacks([], [call]), ")") == Outcome(Stacks([], []), Ok(")", ()))
  {
    Tokens.MaybeConsumeWhitespacesNone(")");
    Tokens.MaybeConsumeWhitespacesNone("");
    assert OperatorToken(")") == Ok("", Ast.RightParenthesis);
    assert HandleTokenStep(Stacks([], [call]), ")") == Outcome(Stacks([], []), Err(Error(InvalidBinary)));
  }
}
