/**
 * What the later parser (calculator-expressions.js) makes of particular
 * inputs: two literals around one operator, chains of one operator,
 * spaced input, redundant and unclosed parentheses, implicit products,
 * empty and malformed inputs, and the text toString prints. Each is proved
 * for every fuel large enough, or for every fuel where the parser spins or
 * fails.
 */
module CalculatorExpressionsCases {
  import opened Window
  import opened Ast
  import opened CalculatorExpressions

  /** Which characters of "x op y" the scans react to, for runs of digits x and y. */
  lemma BinaryMarks(x: string, y: string, op: char)
    requires |x| > 0 && |y| > 0 && AllDigits(x) && AllDigits(y) && IsOperator(op)
    ensures var s := x + [op] + y; !CharIs(s, 0, ' ') && !CharIs(s, 0, '(') && !CharIs(s, |s| - 1, ' ')
    ensures var s := x + [op] + y; NoMarks(s, |x| + 1, |s|) && NoFactorOps(s, |x| + 1, |s|)
    ensures var s := x + [op] + y; (op == '*' || op == '/') ==> NoMarks(s, 0, |s|) && IsFactorOp(s, |x|)
  {
    var s := x + [op] + y;
    BinaryLayout(x, y, op);
    assert DigitAt(s, 0) && DigitAt(s, |s| - 1);
    forall j | 0 <= j < |s| && j != |x|
      ensures !IsMark(s, j) && !IsFactorOp(s, j)
    {
      assert DigitAt(s, j);
    }
  }

  /** The two runs of digits of "x op y" parse to their numbers. */
  lemma BinaryOperands(x: string, y: string, op: char, fuel: nat)
    requires |x| > 0 && |y| > 0 && AllDigits(x) && AllDigits(y)
    requires fuel >= |x| + 1 + |y|
    ensures var s := x + [op] + y; ParseWindow(s, 0, |x|, fuel) == Parsed(Number(DecimalValue(x)))
    ensures var s := x + [op] + y; ParseWindow(s, |x| + 1, |s|, fuel) == Parsed(Number(DecimalValue(y)))
  {
    var s := x + [op] + y;
    BinaryLayout(x, y, op);
    assert s[|x| + 1..|s|] == s[|x| + 1..];
    ParseDigits(s, 0, |x|, fuel);
    ParseDigits(s, |x| + 1, |s|, fuel);
  }

  /** Two runs of digits around one operator parse to that operator's node. */
  lemma ParseBinaryOfDigits(x: string, y: string, op: char, fuel: nat)
    requires |x| > 0 && |y| > 0 && AllDigits(x) && AllDigits(y) && IsOperator(op)
    requires fuel >= |x| + 1 + |y|
    ensures Parse(x + [op] + y, fuel) == Parsed(MakeNode(op, Number(DecimalValue(x)), Number(DecimalValue(y))))
  {
    var s := x + [op] + y;
    BinaryMarks(x, y, op);
    BinaryOperands(x, y, op, fuel);
    var a, b := Number(DecimalValue(x)), Number(DecimalValue(y));
    if op == '+' || op == '-' {
      ParseNodeAtRightmostAdditive(s, 0, |s|, |x|, fuel, a, b);
    } else {
      ParseNodeAtRightmostMultiplicative(s, 0, |s|, |x|, fuel, a, b);
    }
  }

  /**
   * Two literals around one operator parse to that operator's node, and the
   * tree evaluates to the arithmetic result (a zero divisor excepted).
   */
  lemma ParseBinaryOfLiterals(a: nat, b: nat, op: char, fuel: nat)
    requires IsOperator(op)
    requires fuel >= |NatToString(a)| + 1 + |NatToString(b)|
    ensures Parse(NatToString(a) + [op] + NatToString(b), fuel) == Parsed(MakeNode(op, Number(a), Number(b)))
    ensures Evaluate(MakeNode(op, Number(a), Number(b))) == Arithmetic(op, a, b)
  {
    NatToStringDecimal(a);
    NatToStringDecimal(b);
    ParseBinaryOfDigits(NatToString(a), NatToString(b), op, fuel);
    EvaluateLiteralNode(op, a, b);
  }

  // ---------------------------------------------------------------------
  // Particular inputs

  /** The left operand of "10-3-2". */
  lemma SubtractionLeftOperand(s: string, fuel: nat)
    requires Spells(s, "10-3-2")
    requires fuel >= 6
    ensures ParseWindow(s, 0, 4, fuel) == Parsed(Subtract(Number(10), Number(3)))
  {
    assert s[0..2] == "10" && s[3..4] == "3";
    assert DecimalValue("10") == 10;
    assert DecimalValue("3") == 3;
    assert DigitsOnly(s, 0, 2) && DigitsOnly(s, 3, 4);
    assert CharIs(s, 2, '-') && NoMarks(s, 3, 4);
    ParseDigits(s, 0, 2, fuel);
    ParseDigits(s, 3, 4, fuel);
    ParseNodeAtRightmostAdditive(s, 0, 4, 2, fuel, Number(10), Number(3));
  }

  /** "10-3-2" groups to the left, as subtraction should, and evaluates to 5. */
  lemma SubtractionGroupsLeft(s: string, fuel: nat)
    requires Spells(s, "10-3-2")
    requires fuel >= 6
    ensures Parse(s, fuel) == Parsed(Subtract(Subtract(Number(10), Number(3)), Number(2)))
  {
    assert s[5..6] == "2";
    assert DecimalValue("2") == 2;
    assert DigitsOnly(s, 5, 6);
    assert CharIs(s, 4, '-') && NoMarks(s, 5, 6);
    SubtractionLeftOperand(s, fuel);
    ParseDigits(s, 5, 6, fuel);
    ParseNodeAtRightmostAdditive(s, 0, 6, 4, fuel, Subtract(Number(10), Number(3)), Number(2));
  }

  /** The left operand of "20/4/5". */
  lemma DivisionLeftOperand(s: string, fuel: nat)
    requires Spells(s, "20/4/5")
    requires fuel >= 6
    ensures ParseWindow(s, 0, 4, fuel) == Parsed(Divide(Number(20), Number(4)))
  {
    assert s[0..2] == "20" && s[3..4] == "4";
    assert DecimalValue("20") == 20;
    assert DecimalValue("4") == 4;
    assert NoMarks(s, 0, 4) && IsFactorOp(s, 2) && NoFactorOps(s, 3, 4);
    ParseDigits(s, 0, 2, fuel);
    ParseDigits(s, 3, 4, fuel);
    ParseNodeAtRightmostMultiplicative(s, 0, 4, 2, fuel, Number(20), Number(4));
  }

  /** "20/4/5" groups to the left as well, and evaluates to 1. */
  lemma DivisionGroupsLeft(s: string, fuel: nat)
    requires Spells(s, "20/4/5")
    requires fuel >= 6
    ensures Parse(s, fuel) == Parsed(Divide(Divide(Number(20), Number(4)), Number(5)))
  {
    assert s[5..6] == "5";
    assert DecimalValue("5") == 5;
    assert NoMarks(s, 0, 6) && IsFactorOp(s, 4) && NoFactorOps(s, 5, 6);
    DivisionLeftOperand(s, fuel);
    ParseDigits(s, 5, 6, fuel);
    ParseNodeAtRightmostMultiplicative(s, 0, 6, 4, fuel, Divide(Number(20), Number(4)), Number(5));
  }

  /** One digit with spaces around it is a literal. */
  lemma SpacedDigit(s: string, start: int, d: int, end: int, fuel: nat)
    requires 0 <= start <= d < end <= |s| && fuel >= 1
    requires AllSpaces(s, start, d) && IsDigit(s[d]) && AllSpaces(s, d + 1, end)
    ensures ParseWindow(s, start, end, fuel) == Parsed(Number((s[d] - '0') as int))
  {
    assert DigitsOnly(s, d, d + 1);
    ParseIgnoresSurroundingSpaces(s, start, d, d + 1, end, fuel);
    ParseDigits(s, d, d + 1, fuel);
    assert s[d..d + 1] == [s[d]];
    assert DecimalValue([s[d]]) == (s[d] - '0') as int;
  }

  /** Where the spaces, digits and operators of " 1 + 2 * 3 " are. */
  lemma SpacedLayout(s: string)
    requires Spells(s, " 1 + 2 * 3 ")
    ensures AllSpaces(s, 0, 1) && AllSpaces(s, 2, 3) && AllSpaces(s, 4, 5) && AllSpaces(s, 6, 7)
    ensures AllSpaces(s, 8, 9) && AllSpaces(s, 10, 11)
    ensures IsDigit(s[1]) && IsDigit(s[5]) && IsDigit(s[9])
    ensures (s[1] - '0') as int == 1 && (s[5] - '0') as int == 2 && (s[9] - '0') as int == 3
    ensures !CharIs(s, 1, ' ') && !CharIs(s, 5, ' ') && !CharIs(s, 9, ' ')
    ensures CharIs(s, 3, '+') && NoMarks(s, 4, 10) && NoMarks(s, 5, 10)
    ensures IsFactorOp(s, 7) && NoFactorOps(s, 8, 10)
  {
  }

  /** The right operand of " 1 + 2 * 3 ". */
  lemma ProductWithSpaces(s: string, fuel: nat)
    requires Spells(s, " 1 + 2 * 3 ")
    requires fuel >= 11
    ensures ParseWindow(s, 4, 10, fuel) == Parsed(Multiply(Number(2), Number(3)))
  {
    SpacedLayout(s);
    SpacedDigit(s, 5, 5, 7, fuel);
    SpacedDigit(s, 8, 9, 10, fuel);
    ParseNodeAtRightmostMultiplicative(s, 5, 10, 7, fuel, Number(2), Number(3));
    ParseIgnoresSurroundingSpaces(s, 4, 5, 10, 10, fuel);
  }

  /** " 1 + 2 * 3 ": spaces are dropped and '*' binds tighter than '+'. */
  lemma PrecedenceAndSpaces(s: string, fuel: nat)
    requires Spells(s, " 1 + 2 * 3 ")
    requires fuel >= 11
    ensures Parse(s, fuel) == Parsed(Add(Number(1), Multiply(Number(2), Number(3))))
  {
    SpacedLayout(s);
    SpacedDigit(s, 1, 1, 3, fuel);
    ProductWithSpaces(s, fuel);
    ParseNodeAtRightmostAdditive(s, 1, 10, 3, fuel, Number(1), Multiply(Number(2), Number(3)));
    ParseIgnoresSurroundingSpaces(s, 0, 1, 10, 11, fuel);
  }

  /** Nothing, only spaces, or an empty pair of parentheses: no expression, whatever the fuel. */
  lemma EmptyInputs(fuel: nat)
    ensures Parse("", fuel) == Failed(EmptyExpression)
    ensures Parse("   ", fuel) == Failed(EmptyExpression)
    ensures Parse("()", fuel) == Failed(EmptyExpression)
  {
    MatchingCloseOfFlatGroup("()", 0, 1, 2);
  }

  /** An operator without its right operand: the right term is empty. */
  lemma MissingRightOperand(s: string, fuel: nat)
    requires Spells(s, "1+")
    requires fuel >= 1
    ensures Parse(s, fuel) == Failed(EmptyExpression)
  {
    ParseDigits(s, 0, 1, fuel);
    ParseSplitsAtRightmostAdditive(s, 0, 2, 1, fuel);
  }

  /** A leading minus sign is an operator without its left operand. */
  lemma NoUnaryMinus(s: string, fuel: nat)
    requires Spells(s, "-5")
    requires fuel >= 2
    ensures Parse(s, fuel) == Failed(EmptyExpression)
  {
    ParseSplitsAtRightmostAdditive(s, 0, 2, 0, fuel);
  }

  /** A '(' never closed makes the strip loop's findCloseParenthesis throw. */
  lemma UnclosedParenthesis(s: string, fuel: nat)
    requires Spells(s, "(1+2")
    ensures Parse(s, fuel) == Failed(UnmatchedParenthesis)
  {
    MatchingCloseOfUnclosed(s, 0, 4);
  }

  /** A character outside the literal syntax makes parseNumericValue throw. */
  lemma InvalidCharacter(s: string, fuel: nat)
    requires Spells(s, "1+2x")
    requires fuel >= 3
    ensures Parse(s, fuel) == Failed(InvalidLiteral)
  {
    ParseDigits(s, 0, 1, fuel);
    ParseLiteralWindow(s, 2, 4, fuel);
    assert TrimmedText(s, 2, 4) == "2x";
    ParseSplitsAtRightmostAdditive(s, 0, 4, 1, fuel);
  }

  /** Parentheses around the whole input, however deep, are dropped. */
  lemma RedundantParentheses(s: string, fuel: nat)
    requires Spells(s, "(((5)))")
    requires fuel >= 1
    ensures Parse(s, fuel) == Parsed(Number(5))
  {
    assert s[3..4] == "5";
    assert DecimalValue("5") == 5;
    assert DigitsOnly(s, 3, 4) && !CharIs(s, 3, '(');
    MatchingCloseOfFlatGroup(s, 2, 4, 5);
    MatchingCloseOfWrapped(s, 1, 5, 6);
    MatchingCloseOfWrapped(s, 0, 6, 7);
    StripRedundantStep(s, 0, 7, 1, 6);
    StripRedundantStep(s, 1, 6, 2, 5);
    StripRedundantStep(s, 2, 5, 3, 4);
    ParseWindowStripped(s, 0, 7, 3, 4, fuel);
    ParseDigits(s, 3, 4, fuel);
    ParseWindowUnwrapped(s, 3, 4, fuel);
  }

  /** An implicit product makes the parser spin, whatever the fuel. */
  lemma ImplicitProductDiverges(s: string, fuel: nat)
    requires Spells(s, "2(3)")
    ensures Parse(s, fuel) == Diverged
  {
    MatchingCloseOfFlatGroup(s, 1, 3, 4);
    ParseDivergesAtGroup(s, 0, 4, 1, fuel);
  }

  /** Two bracketed terms make the parser spin, whatever the fuel. */
  lemma BracketedSumDiverges(s: string, fuel: nat)
    requires Spells(s, "(1)+(2)")
    ensures Parse(s, fuel) == Diverged
  {
    MatchingCloseOfFlatGroup(s, 0, 2, 7);
    MatchingCloseOfFlatGroup(s, 4, 6, 7);
    assert NoMarks(s, 5, 7);
    assert !CharIs(s, 0, ' ') && !CharIs(s, 6, ' ');
    ParseDivergesAtGroup(s, 0, 7, 4, fuel);
  }

  /**
   * The right-to-left scan walks into a group that it meets at its ')', so
   * "2*(3+4)" is split at the inner '+', into "2*(3" and "4)".
   */
  lemma BracketedFactorSplitsInside(s: string, fuel: nat)
    requires Spells(s, "2*(3+4)")
    requires fuel >= 3
    ensures Parse(s, fuel) == Failed(UnmatchedParenthesis)
  {
    assert CharIs(s, 4, '+') && NoMarks(s, 5, 7);
    assert NoMarks(s, 3, 4) && !CharIs(s, 3, ' ');
    MatchingCloseOfUnclosed(s, 2, 4);
    ParseThrowsAtUnmatched(s, 0, 4, 2, fuel);
    ParseLeftFailsAtRightmostAdditive(s, 0, 7, 4, fuel);
  }

  /**
   * An implicit product over a bracketed sum: the right-to-left scan meets
   * the '+' first, so "2(3+4)" is split into "2(3" and "4)", and the left one
   * has an unmatched '('.
   */
  lemma ImplicitProductOfSumFails(s: string, fuel: nat)
    requires Spells(s, "2(3+4)")
    requires fuel >= 3
    ensures Parse(s, fuel) == Failed(UnmatchedParenthesis)
  {
    assert CharIs(s, 3, '+') && NoMarks(s, 4, 6);
    assert NoMarks(s, 2, 3) && !CharIs(s, 2, ' ');
    MatchingCloseOfUnclosed(s, 1, 3);
    ParseThrowsAtUnmatched(s, 0, 3, 1, fuel);
    ParseLeftFailsAtRightmostAdditive(s, 0, 6, 3, fuel);
  }

  /**
   * A '+' inside a leading group is found by the right-to-left scan, which
   * only jumps when it lands on a '(': "(1+2)*3" is split into "(1" and
   * "2)*3", and the left one has an unmatched '('.
   */
  lemma GroupEnteredFromTheRight(s: string, fuel: nat)
    requires Spells(s, "(1+2)*3")
    requires fuel >= 5
    ensures Parse(s, fuel) == Failed(UnmatchedParenthesis)
  {
    assert CharIs(s, 2, '+') && NoMarks(s, 3, 7);
    assert TrimmedEnd(s, 0, 2) == 2 && TrimmedStart(s, 0, 2) == 0;
    MatchingCloseOfFlatGroup(s, 0, 4, 7);
    MatchingCloseOfUnclosed(s, 0, 2);
    assert ParseWindow(s, 0, 2, fuel) == Failed(UnmatchedParenthesis);
    ParseLeftFailsAtRightmostAdditive(s, 0, 7, 2, fuel);
  }

  /**
   * What toString prints is not read back: "(a) op (b)" ends in a group
   * right of the operator, so the parser spins, whatever the fuel.
   */
  lemma PrintedNodeDiverges(op: char, a: nat, b: nat, fuel: nat)
    requires IsOperator(op)
    ensures Parse(ToString(MakeNode(op, Number(a), Number(b))), fuel) == Diverged
  {
    var x, y := NatToString(a), NatToString(b);
    NatToStringDecimal(a);
    NatToStringDecimal(b);
    ToStringOfLiteralNode(op, a, b);
    var s := Bracketed(x, op, y);
    PrintedNodeLayout(x, y, op);
    var n := |s|;
    forall k | 0 < k < |x| + 1
      ensures !CharIs(s, k, '(') && !CharIs(s, k, ')')
    {
      assert DigitAt(s, k);
    }
    MatchingCloseOfFlatGroup(s, 0, |x| + 1, n);
    forall k | |x| + 5 < k < n - 1
      ensures !CharIs(s, k, '(') && !CharIs(s, k, ')') && !IsMark(s, k)
    {
      assert DigitAt(s, k);
    }
    MatchingCloseOfFlatGroup(s, |x| + 5, n - 1, n);
    assert NoMarks(s, |x| + 6, n);
    ParseDivergesAtGroup(s, 0, n, |x| + 5, fuel);
  }

  /** The values of the trees above. */
  lemma ExampleValues()
    ensures Evaluate(Subtract(Subtract(Number(10), Number(3)), Number(2))) == Some(5.0)
    ensures Evaluate(Divide(Divide(Number(20), Number(4)), Number(5))) == Some(1.0)
    ensures Evaluate(Add(Number(1), Multiply(Number(2), Number(3)))) == Some(7.0)
  {
  }
}
