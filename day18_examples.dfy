/**
 * Day 18 (18/18.py): the unit tests of `parse_string` and
 * `evaluate_string`. Each test text is the text of a well-formed chain
 * (stated by a small lemma), so `ParseChain` and `EvaluateText` give the
 * tree and the value; the longer texts are written as concatenations at
 * their operators, which spells the same string.
 */
module OperationsExamples {
  import opened Base
  import opened Operations
  import Py

  function N(n: nat): Term {
    Number(n)
  }

  /** A test text spelled by a chain parses to the chain's tree. */
  lemma ParseSpelled(c: Chain, s: string)
    requires ChainOk(c) && Compound(c) && ChainText(c) == s
    ensures Parse(s) == Ok(ChainTree(c))
  {
    ParseChain(c);
  }

  /** A test text spelled by a chain evaluates to the chain's left-to-right value. */
  lemma EvaluateSpelled(c: Chain, s: string, v: int)
    requires ChainOk(c) && Compound(c) && ArithChain(c) && ChainValue(c) == v && ChainText(c) == s
    ensures EvaluateString(s) == Ok(v)
  {
    EvaluateText(c);
  }

  // ---------------------------------------------------------------- test_parse_string

  const TwoOperands := More(Single(N(1)), '+', N(2))
  const LeftToRight := More(More(Single(N(1)), '+', N(2)), '*', N(3))
  const Long := More(More(More(More(More(Single(N(1)), '+', N(2)), '*', N(3)), '+', N(4)), '*', N(5)), '+', N(6))
  const GroupRight := More(Single(N(1)), '+', Group(More(Single(N(2)), '*', N(3))))
  const NestedGroup := More(Single(N(1)), '+', Group(More(More(Single(N(2)), '*', Group(More(Single(N(3)), '+', N(4)))), '*', N(5))))
  const GroupLeft := More(Single(Group(More(Single(N(1)), '+', N(2)))), '*', N(3))

  lemma TextTwoOperands(s: string)
    requires s == "1 + 2"
    ensures ChainText(TwoOperands) == s
  {
  }

  lemma TextLeftToRight(s: string)
    requires s == "1 + 2 * 3"
    ensures ChainText(LeftToRight) == s
  {
  }

  lemma TextLong(s: string)
    requires s == "1 + 2 * 3 + 4 * 5 + 6"
    ensures ChainText(Long) == s
  {
  }

  lemma TextGroupRight(s: string)
    requires s == "1 + (2 * 3)"
    ensures ChainText(GroupRight) == s
  {
  }

  lemma TextNestedGroup(s: string)
    requires s == "1 + (2 * (3 + 4) * 5)"
    ensures ChainText(NestedGroup) == s
  {
  }

  lemma TextGroupLeft(s: string)
    requires s == "(1 + 2) * 3"
    ensures ChainText(GroupLeft) == s
  {
  }

  lemma ParseTwoOperands(s: string)
    requires s == "1 + 2"
    ensures Parse(s) == Ok(Binary(Num(1), '+', Num(2)))
  {
    TextTwoOperands(s);
    ParseSpelled(TwoOperands, s);
  }

  lemma ParseLeftToRight(s: string)
    requires s == "1 + 2 * 3"
    ensures Parse(s) == Ok(Binary(Binary(Num(1), '+', Num(2)), '*', Num(3)))
  {
    TextLeftToRight(s);
    ParseSpelled(LeftToRight, s);
  }

  lemma ParseLong(s: string)
    requires s == "1 + 2 * 3 + 4 * 5 + 6"
    ensures Parse(s) == Ok(Binary(Binary(Binary(Binary(Binary(Num(1), '+', Num(2)), '*', Num(3)), '+', Num(4)), '*', Num(5)), '+', Num(6)))
  {
    TextLong(s);
    ParseSpelled(Long, s);
  }

  lemma ParseGroupRight(s: string)
    requires s == "1 + (2 * 3)"
    ensures Parse(s) == Ok(Binary(Num(1), '+', Binary(Num(2), '*', Num(3))))
  {
    TextGroupRight(s);
    ParseSpelled(GroupRight, s);
  }

  lemma ParseNestedGroup(s: string)
    requires s == "1 + (2 * (3 + 4) * 5)"
    ensures Parse(s) == Ok(Binary(Num(1), '+', Binary(Binary(Num(2), '*', Binary(Num(3), '+', Num(4))), '*', Num(5))))
  {
    TextNestedGroup(s);
    ParseSpelled(NestedGroup, s);
  }

  lemma ParseGroupLeft(s: string)
    requires s == "(1 + 2) * 3"
    ensures Parse(s) == Ok(Binary(Binary(Num(1), '+', Num(2)), '*', Num(3)))
  {
    TextGroupLeft(s);
    ParseSpelled(GroupLeft, s);
  }

  // ---------------------------------------------------------------- test_evaluate_string

  const Sum51 := More(More(Single(N(1)), '+', Group(More(Single(N(2)), '*', N(3)))), '+', Group(More(Single(N(4)), '*', Group(More(Single(N(5)), '+', N(6))))))
  const Sum26 := More(More(Single(N(2)), '*', N(3)), '+', Group(More(Single(N(4)), '*', N(5))))
  const Sum437 := More(Single(N(5)), '+', Group(More(More(More(More(More(Single(N(8)), '*', N(3)), '+', N(9)), '+', N(3)), '*', N(4)), '*', N(3))))
  const Sum12240 := More(More(Single(N(5)), '*', N(9)), '*', Group(More(More(More(More(More(Single(N(7)), '*', N(3)), '*', N(3)), '+', N(9)), '*', N(3)), '+', Group(More(More(Single(N(8)), '+', N(6)), '*', N(4))))))
  const Sum13632 := More(More(More(Single(Group(More(More(Single(Group(More(More(Single(N(2)), '+', N(4)), '*', N(9)))), '*', Group(More(More(More(Single(N(6)), '+', N(9)), '*', N(8)), '+', N(6)))), '+', N(6)))), '+', N(2)), '+', N(4)), '*', N(2))

  lemma Text51(s: string)
    requires s == "1 + (2 * 3)" + " + (4 * (5 + 6))"
    ensures ChainText(Sum51) == s
  {
  }

  lemma Text26(s: string)
    requires s == "2 * 3 + (4 * 5)"
    ensures ChainText(Sum26) == s
  {
  }

  lemma Text437(s: string)
    requires s == "5 + (" + "8 * 3 + 9 + 3 * 4 * 3" + ")"
    ensures ChainText(Sum437) == s
  {
  }

  lemma Text12240(s: string)
    requires s == "5 * 9" + " * (" + ("7 * 3 * 3 + 9 * 3" + " + (8 + 6 * 4)") + ")"
    ensures ChainText(Sum12240) == s
  {
  }

  lemma Text13632(s: string)
    requires s == "(" + ("(2 + 4 * 9)" + " * " + "(6 + 9 * 8 + 6)" + " + 6") + ")" + " + 2" + " + 4" + " * 2"
    ensures ChainText(Sum13632) == s
  {
  }

  lemma Evaluate71(s: string)
    requires s == "1 + 2 * 3 + 4 * 5 + 6"
    ensures EvaluateString(s) == Ok(71)
  {
    TextLong(s);
    Chain71();
    EvaluateSpelled(Long, s, 71);
  }

  lemma Evaluate51(s: string)
    requires s == "1 + (2 * 3)" + " + (4 * (5 + 6))"
    ensures EvaluateString(s) == Ok(51)
  {
    Text51(s);
    Chain51();
    EvaluateSpelled(Sum51, s, 51);
  }

  lemma Evaluate26(s: string)
    requires s == "2 * 3 + (4 * 5)"
    ensures EvaluateString(s) == Ok(26)
  {
    Text26(s);
    Chain26();
    EvaluateSpelled(Sum26, s, 26);
  }

  lemma Evaluate437(s: string)
    requires s == "5 + (" + "8 * 3 + 9 + 3 * 4 * 3" + ")"
    ensures EvaluateString(s) == Ok(437)
  {
    Text437(s);
    Chain437();
    EvaluateSpelled(Sum437, s, 437);
  }

  lemma Evaluate12240(s: string)
    requires s == "5 * 9" + " * (" + ("7 * 3 * 3 + 9 * 3" + " + (8 + 6 * 4)") + ")"
    ensures EvaluateString(s) == Ok(12240)
  {
    Text12240(s);
    Chain12240();
    EvaluateSpelled(Sum12240, s, 12240);
  }

  lemma Evaluate13632(s: string)
    requires s == "(" + ("(2 + 4 * 9)" + " * " + "(6 + 9 * 8 + 6)" + " + 6") + ")" + " + 2" + " + 4" + " * 2"
    ensures EvaluateString(s) == Ok(13632)
  {
    Text13632(s);
    Chain13632();
    EvaluateSpelled(Sum13632, s, 13632);
  }

  lemma Chain71()
    ensures ChainOk(Long) && Compound(Long) && ArithChain(Long) && ChainValue(Long) == 71
  {
  }

  lemma Chain51()
    ensures ChainOk(Sum51) && Compound(Sum51) && ArithChain(Sum51) && ChainValue(Sum51) == 51
  {
  }

  lemma Chain26()
    ensures ChainOk(Sum26) && Compound(Sum26) && ArithChain(Sum26) && ChainValue(Sum26) == 26
  {
  }

  lemma Chain437()
    ensures ChainOk(Sum437) && Compound(Sum437) && ArithChain(Sum437) && ChainValue(Sum437) == 437
  {
  }

  lemma Chain12240()
    ensures ChainOk(Sum12240) && Compound(Sum12240) && ArithChain(Sum12240) && ChainValue(Sum12240) == 12240
  {
  }

  lemma Chain13632()
    ensures ChainOk(Sum13632) && Compound(Sum13632) && ArithChain(Sum13632) && ChainValue(Sum13632) == 13632
  {
    EvaluateLeftToRight(Sum13632);
    assert Evaluate(ChainTree(Sum13632)) == Ok(13632);
  }

  // ---------------------------------------------------------------- error paths

  /** An operator other than `+` or `*` parses, and `evaluate` then raises. */
  lemma UnknownOperator(s: string)
    requires s == "1 - 2"
    ensures Parse(s) == Ok(Binary(Num(1), '-', Num(2)))
    ensures EvaluateString(s) == Err("Exception")
  {
    var c := More(Single(N(1)), '-', N(2));
    assert ChainText(c) == s;
    ParseSpelled(c, s);
  }

  /** The steps of `parse_string` up to an operator token that is not one character. */
  lemma ParseLongOperator(s: string, t: string, right: string, left: string, op: string, lhsText: string, rhs: Expr)
    requires StripParens(s) == Ok(t) && EndToken(t) == Ok(Pair(right, left))
    requires Operand(right, s) == Ok(rhs)
    requires EndToken(left) == Ok(Pair(op, lhsText)) && |op| != 1
    ensures Parse(s) == Err("AssertionError")
  {
  }

  /** A two-character operator token fails the assertion on its length. */
  lemma OperatorOneChar(s: string)
    requires s == "1 ++ 2"
    ensures Parse(s) == Err("AssertionError")
  {
    assert s == "1 ++" + " " + "2";
    assert StripParens(s) == Ok(s);
    EndTokenSpace("1 ++", "2");
    assert "1 ++" == "1" + " " + "++";
    EndTokenSpace("1", "++");
    NumberText(2);
    assert Py.NatToString(2) == "2";
    assert Operand("2", s) == Ok(Num(2));
    ParseLongOperator(s, s, "2", "1 ++", "++", "1", Num(2));
  }

  /** A bare number has no operator: `get_end_token` returns the string, which does not unpack. */
  lemma BareNumber(s: string)
    requires s == "5"
    ensures Parse(s) == Err("ValueError")
  {
    assert LastSpace(s, 0) == None;
  }
}
