/**
 * What the earlier parser (calculator.js) makes of particular inputs: two
 * literals around one operator, chains of one operator, bracketed factors,
 * wrapped and unclosed parentheses, empty inputs, and the text toString
 * prints.
 */
module CalculatorCases {
  import opened Window
  import opened Ast
  import opened Calculator

  /** Which characters of "x op y" the passes react to, for runs of digits x and y. */
  lemma BinaryMarks(x: string, y: string, op: char)
    requires |x| > 0 && |y| > 0 && AllDigits(x) && AllDigits(y) && IsOperator(op)
    ensures var s := x + [op] + y; !CharIs(s, 0, ' ') && !CharIs(s, 0, '(') && !CharIs(s, |s| - 1, ' ')
    ensures var s := x + [op] + y; Plain(Additive, s, 0, |x|) && Plain(Multiplicative, s, 0, |x|)
    ensures var s := x + [op] + y; (op == '+' || op == '-') ==> IsTierOp(Additive, s, |x|)
    ensures var s := x + [op] + y;
              (op == '*' || op == '/') ==> Plain(Additive, s, 0, |s|) && IsTierOp(Multiplicative, s, |x|)
  {
    var s := x + [op] + y;
    BinaryLayout(x, y, op);
    assert DigitAt(s, 0) && DigitAt(s, |s| - 1);
    forall j | 0 <= j < |s| && j != |x|
      ensures !IsTierOp(Additive, s, j) && !IsTierOp(Multiplicative, s, j) && !CharIs(s, j, '(')
    {
      assert DigitAt(s, j);
    }
  }

  /** The two runs of digits of "x op y" parse to their numbers. */
  lemma BinaryOperands(x: string, y: string, op: char, fuel: nat)
    requires |x| > 0 && |y| > 0 && AllDigits(x) && AllDigits(y)
    requires fuel >= |x| + 1 + |y|
    ensures var s := x + [op] + y; ParseWindow(s, 0, |x|, fuel) == Parsed(Number(DecimalValue(x)))
    ensures var s := x + [op] + y; ParseWindow(s, |x| + 1, |s|, fuel) == Parsed(Number(DecimalValue(y)))
  {
    var s := x + [op] + y;
    BinaryLayout(x, y, op);
    assert s[|x| + 1..|s|] == s[|x| + 1..];
    ParseDigits(s, 0, |x|, fuel);
    ParseDigits(s, |x| + 1, |s|, fuel);
  }

  /** Two runs of digits around one operator parse to that operator's node. */
  lemma ParseBinaryOfDigits(x: string, y: string, op: char, fuel: nat)
    requires |x| > 0 && |y| > 0 && AllDigits(x) && AllDigits(y) && IsOperator(op)
    requires fuel >= |x| + 1 + |y|
    ensures Parse(x + [op] + y, fuel) == Parsed(MakeNode(op, Number(DecimalValue(x)), Number(DecimalValue(y))))
  {
    var s := x + [op] + y;
    BinaryMarks(x, y, op);
    BinaryOperands(x, y, op, fuel);
    if op == '+' || op == '-' {
      PlainIsTopLevelFree(Additive, s, |s|, 0, |x|);
      ParseSplitsAtLeftmostAdditive(s, 0, |s|, |x|, fuel);
    } else {
      PlainIsTopLevelFree(Additive, s, |s|, 0, |s|);
      PlainIsTopLevelFree(Multiplicative, s, |s|, 0, |x|);
      ParseSplitsAtLeftmostMultiplicative(s, 0, |s|, |x|, fuel);
    }
  }

  /**
   * Two literals around one operator parse to that operator's node, and the
   * tree evaluates to the arithmetic result (a zero divisor excepted).
   */
  lemma ParseBinaryOfLiterals(a: nat, b: nat, op: char, fuel: nat)
    requires IsOperator(op)
    requires fuel >= |NatToString(a)| + 1 + |NatToString(b)|
    ensures Parse(NatToString(a) + [op] + NatToString(b), fuel) == Parsed(MakeNode(op, Number(a), Number(b)))
    ensures Evaluate(MakeNode(op, Number(a), Number(b))) == Arithmetic(op, a, b)
  {
    NatToStringDecimal(a);
    NatToStringDecimal(b);
    ParseBinaryOfDigits(NatToString(a), NatToString(b), op, fuel);
    EvaluateLiteralNode(op, a, b);
  }

  // ---------------------------------------------------------------------
  // Particular inputs

  /** The right operand of "10-3-2". */
  lemma SubtractionRightOperand(s: string, fuel: nat)
    requires Spells(s, "10-3-2")
    requires fuel >= 3
    ensures ParseWindow(s, 3, 6, fuel) == Parsed(Subtract(Number(3), Number(2)))
  {
    assert s[3..4] == "3" && s[5..6] == "2";
    assert DecimalValue("3") == 3;
    assert DecimalValue("2") == 2;
    assert Plain(Additive, s, 3, 4) && IsTierOp(Additive, s, 4);
    assert DigitsOnly(s, 3, 4) && DigitsOnly(s, 5, 6);
    ParseDigits(s, 3, 4, fuel);
    ParseDigits(s, 5, 6, fuel);
    PlainIsTopLevelFree(Additive, s, 6, 3, 4);
    ParseSplitsAtLeftmostAdditive(s, 3, 6, 4, fuel);
  }

  /** "10-3-2" groups to the right: 10 - (3 - 2). */
  lemma SubtractionGroupsRight(s: string, fuel: nat)
    requires Spells(s, "10-3-2")
    requires fuel >= 3
    ensures Parse(s, fuel) == Parsed(Subtract(Number(10), Subtract(Number(3), Number(2))))
  {
    assert s[0..2] == "10";
    assert DecimalValue("10") == 10;
    assert Plain(Additive, s, 0, 2) && IsTierOp(Additive, s, 2);
    assert DigitsOnly(s, 0, 2);
    SubtractionRightOperand(s, fuel);
    ParseDigits(s, 0, 2, fuel);
    PlainIsTopLevelFree(Additive, s, 6, 0, 2);
    ParseSplitsAtLeftmostAdditive(s, 0, 6, 2, fuel);
  }

  /** The right operand of "20/4/5". */
  lemma DivisionRightOperand(s: string, fuel: nat)
    requires Spells(s, "20/4/5")
    requires fuel >= 6
    ensures ParseWindow(s, 3, 6, fuel) == Parsed(Divide(Number(4), Number(5)))
  {
    assert s[3..4] == "4" && s[5..6] == "5";
    assert DecimalValue("4") == 4;
    assert DecimalValue("5") == 5;
    assert Plain(Additive, s, 3, 6) && Plain(Multiplicative, s, 3, 4) && IsTierOp(Multiplicative, s, 4);
    assert DigitsOnly(s, 3, 4) && DigitsOnly(s, 5, 6);
    ParseDigits(s, 3, 4, fuel);
    ParseDigits(s, 5, 6, fuel);
    PlainIsTopLevelFree(Additive, s, 6, 3, 6);
    PlainIsTopLevelFree(Multiplicative, s, 6, 3, 4);
    ParseSplitsAtLeftmostMultiplicative(s, 3, 6, 4, fuel);
  }

  /** "20/4/5" groups to the right: 20 / (4 / 5). */
  lemma DivisionGroupsRight(s: string, fuel: nat)
    requires Spells(s, "20/4/5")
    requires fuel >= 6
    ensures Parse(s, fuel) == Parsed(Divide(Number(20), Divide(Number(4), Number(5))))
  {
    assert s[0..2] == "20";
    assert DecimalValue("20") == 20;
    assert Plain(Additive, s, 0, 6) && Plain(Multiplicative, s, 0, 2) && IsTierOp(Multiplicative, s, 2);
    assert DigitsOnly(s, 0, 2);
    DivisionRightOperand(s, fuel);
    ParseDigits(s, 0, 2, fuel);
    PlainIsTopLevelFree(Additive, s, 6, 0, 6);
    PlainIsTopLevelFree(Multiplicative, s, 6, 0, 2);
    ParseSplitsAtLeftmostMultiplicative(s, 0, 6, 2, fuel);
  }

  /** "2*(3+4)": the additive pass skips the group, the multiplicative one stops at '*'. */
  lemma BracketedFactorScans(s: string, fuel: nat)
    requires Spells(s, "2*(3+4)")
    requires fuel >= 3
    ensures ForwardScan(Additive, s, 7, 0, fuel) == NoSplit
    ensures ForwardScan(Multiplicative, s, 7, 0, fuel) == Split(1)
  {
    MatchingCloseOfFlatGroup(s, 2, 6, 7);
    assert Plain(Additive, s, 0, 2);
    ForwardScanWalks(Additive, s, 7, 0, 2, fuel);
    ForwardScanSkipsGroup(Additive, s, 7, 2, fuel - 2);
    assert Plain(Multiplicative, s, 0, 1);
    ForwardScanWalks(Multiplicative, s, 7, 0, 1, fuel);
  }

  /** "2*(3+4)" is the product of "2" and the inside of the group. */
  lemma BracketedFactorRoot(s: string, fuel: nat)
    requires Spells(s, "2*(3+4)")
    requires fuel >= 3
    ensures Parse(s, fuel) == Join('*', ParseWindow(s, 0, 1, fuel), ParseWindow(s, 3, 6, fuel))
  {
    ParseStripsOnePair(s, 2, 7, fuel);
    BracketedFactorScans(s, fuel);
    ParseStrippedAtMultiplicativeSplit(s, 0, 7, 1, fuel);
    ParseWindowUnwrapped(s, 0, 7, fuel);
  }

  /** The bracketed sum inside "2*(3+4)" and "(1+2)*3". */
  lemma SumOfDigits(s: string, start: int, fuel: nat)
    requires 0 <= start && start + 3 <= |s| && fuel >= 3
    requires IsDigit(s[start]) && s[start + 1] == '+' && IsDigit(s[start + 2])
    ensures ParseWindow(s, start, start + 3, fuel) ==
            Parsed(Add(Number((s[start] - '0') as int), Number((s[start + 2] - '0') as int)))
  {
    assert DigitsOnly(s, start, start + 1) && DigitsOnly(s, start + 2, start + 3);
    ParseDigits(s, start, start + 1, fuel);
    ParseDigits(s, start + 2, start + 3, fuel);
    assert s[start..start + 1] == [s[start]] && s[start + 2..start + 3] == [s[start + 2]];
    assert DecimalValue([s[start]]) == (s[start] - '0') as int;
    assert DecimalValue([s[start + 2]]) == (s[start + 2] - '0') as int;
    assert Plain(Additive, s, start, start + 1);
    PlainIsTopLevelFree(Additive, s, start + 3, start, start + 1);
    ParseSplitsAtLeftmostAdditive(s, start, start + 3, start + 1, fuel);
  }

  /** A bracketed right factor: "2*(3+4)" is 2 * (3 + 4). */
  lemma BracketedFactor(s: string, fuel: nat)
    requires Spells(s, "2*(3+4)")
    requires fuel >= 3
    ensures Parse(s, fuel) == Parsed(Multiply(Number(2), Add(Number(3), Number(4))))
  {
    assert s[0..1] == "2";
    assert DecimalValue("2") == 2;
    assert DigitsOnly(s, 0, 1);
    assert IsDigit(s[3]) && s[4] == '+' && IsDigit(s[5]);
    assert (s[3] - '0') as int == 3 && (s[5] - '0') as int == 4;
    SumOfDigits(s, 3, fuel);
    ParseDigits(s, 0, 1, fuel);
    var two, sum := ParseWindow(s, 0, 1, fuel), ParseWindow(s, 3, 6, fuel);
    assert two == Parsed(Number(2));
    assert sum == Parsed(Add(Number(3), Number(4)));
    BracketedFactorRoot(s, fuel);
  }

  /** "(1+2)*3": both passes skip the group, the multiplicative one then stops at '*'. */
  lemma BracketedLeftFactorScans(s: string, fuel: nat)
    requires Spells(s, "(1+2)*3")
    requires fuel >= 3
    ensures ForwardScan(Additive, s, 7, 0, fuel) == NoSplit
    ensures ForwardScan(Multiplicative, s, 7, 0, fuel) == Split(5)
  {
    MatchingCloseOfFlatGroup(s, 0, 4, 7);
    ForwardScanSkipsGroup(Additive, s, 7, 0, fuel);
    assert Plain(Additive, s, 5, 7);
    ForwardScanWalks(Additive, s, 7, 5, 7, fuel - 1);
    ForwardScanSkipsGroup(Multiplicative, s, 7, 0, fuel);
  }

  /** "(1+2)*3" is the product of the inside of the group and "3". */
  lemma BracketedLeftFactorRoot(s: string, fuel: nat)
    requires Spells(s, "(1+2)*3")
    requires fuel >= 3
    ensures Parse(s, fuel) == Join('*', ParseWindow(s, 1, 4, fuel), ParseWindow(s, 6, 7, fuel))
  {
    ParseStripsOnePair(s, 0, 5, fuel);
    BracketedLeftFactorScans(s, fuel);
    ParseStrippedAtMultiplicativeSplit(s, 0, 7, 5, fuel);
    ParseWindowUnwrapped(s, 0, 7, fuel);
  }

  /** A bracketed left factor: "(1+2)*3" is (1 + 2) * 3. */
  lemma BracketedLeftFactor(s: string, fuel: nat)
    requires Spells(s, "(1+2)*3")
    requires fuel >= 3
    ensures Parse(s, fuel) == Parsed(Multiply(Add(Number(1), Number(2)), Number(3)))
  {
    assert s[6..7] == "3";
    assert DecimalValue("3") == 3;
    assert DigitsOnly(s, 6, 7);
    assert IsDigit(s[1]) && s[2] == '+' && IsDigit(s[3]);
    assert (s[1] - '0') as int == 1 && (s[3] - '0') as int == 2;
    SumOfDigits(s, 1, fuel);
    ParseDigits(s, 6, 7, fuel);
    var sum, three := ParseWindow(s, 1, 4, fuel), ParseWindow(s, 6, 7, fuel);
    assert sum == Parsed(Add(Number(1), Number(2)));
    assert three == Parsed(Number(3));
    BracketedLeftFactorRoot(s, fuel);
  }

  /** One pair around a literal is dropped. */
  lemma SinglePair(s: string, fuel: nat)
    requires Spells(s, "(5)")
    requires fuel >= 1
    ensures Parse(s, fuel) == Parsed(Number(5))
  {
    ParseStripsOnePair(s, 0, 3, fuel);
    ParseDigits(s, 1, 2, fuel);
    assert s[1..2] == "5";
    assert DecimalValue("5") == 5;
  }

  /** Two pairs around a literal: only one is dropped, and "(5)" is no literal. */
  lemma DoublePairRefused(s: string, fuel: nat)
    requires Spells(s, "((5))")
    requires fuel >= 1
    ensures Parse(s, fuel) == Failed(InvalidLiteral)
  {
    MatchingCloseOfFlatGroup(s, 1, 3, 4);
    ParseDoubleWrappedFails(s, 0, 5, fuel);
  }

  /**
   * "(1)+(2)" starts with '(' and ends with ')', so the strip drops the two,
   * though they are not partners, and leaves "1)+(2"; its left term "1)" is
   * not a literal.
   */
  lemma MismatchedStrip(s: string, fuel: nat)
    requires Spells(s, "(1)+(2)")
    requires fuel >= 3
    ensures Parse(s, fuel) == Failed(InvalidLiteral)
  {
    assert TrimmedEnd(s, 0, 7) == 7 && TrimmedStart(s, 0, 7) == 0;
    assert TrimmedEnd(s, 1, 6) == 6 && TrimmedStart(s, 1, 6) == 1;
    assert StripOnce(s, 0, 7) == (1, 6);
    assert Plain(Additive, s, 1, 3);
    ForwardScanWalks(Additive, s, 6, 1, 3, fuel);
    assert Plain(Additive, s, 1, 3) && Plain(Multiplicative, s, 1, 3);
    ParseLiteralWindow(s, 1, 3, fuel);
    assert TrimmedText(s, 1, 3) == "1)";
  }

  /** A '(' never closed makes the scan restart at index 0 forever. */
  lemma UnclosedParenthesisDiverges(s: string, fuel: nat)
    requires Spells(s, "(1+2")
    ensures Parse(s, fuel) == Diverged
  {
    MatchingCloseOfUnclosed(s, 0, 4);
    ParseDivergesAtUnmatched(s, 0, 4, fuel);
  }

  /** The scans skip a group whole, so an implicit product reaches parseNumericValue. */
  lemma ImplicitProductRefused(s: string, fuel: nat)
    requires Spells(s, "2(3)")
    requires fuel >= 2
    ensures Parse(s, fuel) == Failed(InvalidLiteral)
  {
    MatchingCloseOfFlatGroup(s, 1, 3, 4);
    assert Plain(Additive, s, 0, 1) && Plain(Multiplicative, s, 0, 1);
    ForwardScanWalks(Additive, s, 4, 0, 1, fuel);
    ForwardScanSkipsGroup(Additive, s, 4, 1, fuel - 1);
    ForwardScanWalks(Multiplicative, s, 4, 0, 1, fuel);
    ForwardScanSkipsGroup(Multiplicative, s, 4, 1, fuel - 1);
    ParseWindowUnwrapped(s, 0, 4, fuel);
    assert TrimmedText(s, 0, 4) == s;
  }

  /**
   * In "1+(2" the right term "(2" sends its additive scan back to index 0,
   * where it finds the '+' again, before its own window: the left term of
   * that split is the inverted window [2, 1), which is empty.
   */
  lemma RestartSplitsOutsideWindow(s: string, fuel: nat)
    requires Spells(s, "1+(2")
    requires fuel >= 3
    ensures Parse(s, fuel) == Failed(EmptyExpression)
  {
    assert Plain(Additive, s, 0, 1);
    assert DigitsOnly(s, 0, 1);
    MatchingCloseOfUnclosed(s, 2, 4);
    ForwardScanRestartsAtZero(Additive, s, 4, 2, fuel);
    ForwardScanWalks(Additive, s, 4, 0, 1, fuel - 1);
    assert ForwardScan(Additive, s, 4, 2, fuel) == Split(1);
    ParseStrippedAtAdditiveSplit(s, 2, 4, 1, fuel);
    PlainIsTopLevelFree(Additive, s, 4, 0, 1);
    ParseSplitsAtLeftmostAdditive(s, 0, 4, 1, fuel);
    ParseDigits(s, 0, 1, fuel);
    ParseWindowUnwrapped(s, 2, 4, fuel);
    assert ParseWindow(s, 2, 1, fuel) == Failed(EmptyExpression);
  }

  /** Nothing, only spaces, or an empty pair of parentheses: no expression, whatever the fuel. */
  lemma EmptyInputs(fuel: nat)
    ensures Parse("", fuel) == Failed(EmptyExpression)
    ensures Parse("   ", fuel) == Failed(EmptyExpression)
    ensures Parse("()", fuel) == Failed(EmptyExpression)
  {
  }

  /**
   * The shape of what toString prints for a node over two literals: "(x) op (y)"
   * with x the n digits at [1, n + 1) and y the digits at [n + 6, |s| - 1).
   */
  predicate PrintedShape(s: string, n: int, op: char) {
    0 < n && n + 8 <= |s| && s[0] == '(' && s[n + 1] == ')' && s[n + 2] == ' ' &&
    s[n + 3] == op && s[n + 4] == ' ' && s[n + 5] == '(' && s[|s| - 1] == ')' &&
    DigitsOnly(s, 1, n + 1) && DigitsOnly(s, n + 6, |s| - 1)
  }

  /** A node over two literals prints in that shape. */
  lemma PrintedNodeShape(op: char, a: nat, b: nat)
    requires IsOperator(op)
    ensures PrintedShape(ToString(MakeNode(op, Number(a), Number(b))), |NatToString(a)|, op)
  {
    var x, y := NatToString(a), NatToString(b);
    NatToStringDecimal(a);
    NatToStringDecimal(b);
    ToStringOfLiteralNode(op, a, b);
    PrintedNodeLayout(x, y, op);
  }

  /** The single strip takes off the outer '(' and ')' of a printed node. */
  lemma PrintedNodeStripped(s: string, n: int, op: char, fuel: nat)
    requires PrintedShape(s, n, op)
    ensures Parse(s, fuel) == ParseStripped(s, 1, |s| - 1, fuel)
  {
    assert DigitAt(s, 1) && DigitAt(s, |s| - 2);
    assert TrimmedEnd(s, 0, |s|) == |s| && TrimmedStart(s, 0, |s|) == 0;
    assert TrimmedEnd(s, 1, |s| - 1) == |s| - 1 && TrimmedStart(s, 1, |s| - 1) == 1;
    assert StripOnce(s, 0, |s|) == (1, |s| - 1);
  }

  /** In "(x) + (y)" and "(x) - (y)" the left term "x) " ends in the ')' and is no literal. */
  lemma PrintedSumShapeRefused(s: string, n: int, op: char, fuel: nat)
    requires PrintedShape(s, n, op) && (op == '+' || op == '-')
    requires fuel >= n + 3
    ensures Parse(s, fuel) == Failed(InvalidLiteral)
  {
    PrintedNodeStripped(s, n, op, fuel);
    var k := n + 3;
    forall j | 1 <= j < k
      ensures !IsTierOp(Additive, s, j) && !IsTierOp(Multiplicative, s, j) && !CharIs(s, j, '(')
    {
      if j < n + 1 {
        assert DigitAt(s, j);
      }
    }
    ForwardScanWalks(Additive, s, |s| - 1, 1, k, fuel);
    ParseLiteralWindow(s, 1, k, fuel);
    TrimmedEndSkipsSpaces(s, 1, n + 2, k);
    assert DigitAt(s, 1);
    var t := TrimmedText(s, 1, k);
    assert t == s[1..n + 2];
    assert t[|t| - 1] == ')';
  }

  /**
   * What toString prints for a sum or a difference is not read back: the
   * strip drops the outer '(' and ')', which are not partners, and the left
   * term "a)" is no literal.
   */
  lemma PrintedSumRefused(op: char, a: nat, b: nat, fuel: nat)
    requires op == '+' || op == '-'
    requires fuel >= |NatToString(a)| + 3
    ensures Parse(ToString(MakeNode(op, Number(a), Number(b))), fuel) == Failed(InvalidLiteral)
  {
    PrintedNodeShape(op, a, b);
    PrintedSumShapeRefused(ToString(MakeNode(op, Number(a), Number(b))), |NatToString(a)|, op, fuel);
  }

  /** The additive scan from index 0 of a printed product reaches its right '(' after 4 steps. */
  lemma PrintedProductScanCycle(s: string, n: int, op: char, end: int)
    requires PrintedShape(s, n, op) && (op == '*' || op == '/') && end == |s| - 1
    ensures forall f: nat :: f >= 4 ==> ForwardScan(Additive, s, end, 0, f) == ForwardScan(Additive, s, end, n + 5, f - 4)
    ensures forall f: nat :: f < 4 ==> ForwardScan(Additive, s, end, 0, f) == Loops
  {
    var p := n + 5;
    forall j | 0 < j < n + 1
      ensures !CharIs(s, j, '(') && !CharIs(s, j, ')')
    {
      assert DigitAt(s, j);
    }
    MatchingCloseOfFlatGroup(s, 0, n + 1, end);
    assert Plain(Additive, s, n + 2, p);
    forall f: nat | f >= 4
      ensures ForwardScan(Additive, s, end, 0, f) == ForwardScan(Additive, s, end, p, f - 4)
    {
      ForwardScanSkipsGroup(Additive, s, end, 0, f);
      ForwardScanWalks(Additive, s, end, n + 2, p, f - 1);
    }
    forall f: nat | f < 4
      ensures ForwardScan(Additive, s, end, 0, f) == Loops
    {
      if f > 0 {
        ForwardScanSkipsGroup(Additive, s, end, 0, f);
        ForwardScanStarves(Additive, s, end, n + 2, p, f - 1);
      }
    }
  }

  /** The right '(' of a printed product has no partner before the last ')'. */
  lemma PrintedProductUnpartnered(s: string, n: int, op: char)
    requires PrintedShape(s, n, op)
    ensures MatchingClose(s, n + 5, |s| - 1).None?
  {
    forall j | n + 5 < j < |s| - 1
      ensures !CharIs(s, j, ')')
    {
      assert DigitAt(s, j);
    }
  }

  /** So the additive scan of the stripped window of a printed product never ends. */
  lemma PrintedProductScanLoops(s: string, n: int, op: char, fuel: nat)
    requires PrintedShape(s, n, op) && (op == '*' || op == '/')
    ensures ForwardScan(Additive, s, |s| - 1, 1, fuel) == Loops
  {
    var end, p := |s| - 1, n + 5;
    PrintedProductScanCycle(s, n, op, end);
    PrintedProductUnpartnered(s, n, op);
    forall j | 1 <= j < p
      ensures !IsTierOp(Additive, s, j) && !CharIs(s, j, '(')
    {
      if j < n + 1 {
        assert DigitAt(s, j);
      }
    }
    if fuel >= p - 1 {
      ForwardScanWalks(Additive, s, end, 1, p, fuel);
      ForwardScanCycles(Additive, s, end, p, 4, fuel - (p - 1));
    } else {
      ForwardScanStarves(Additive, s, end, 1, p, fuel);
    }
  }

  /** In "(x) * (y)" and "(x) / (y)" the parse spins, whatever the fuel. */
  lemma PrintedProductShapeDiverges(s: string, n: int, op: char, fuel: nat)
    requires PrintedShape(s, n, op) && (op == '*' || op == '/')
    ensures Parse(s, fuel) == Diverged
  {
    PrintedNodeStripped(s, n, op, fuel);
    PrintedProductScanLoops(s, n, op, fuel);
  }

  /**
   * What toString prints for a product or a quotient is not read back
   * either: the scan restarted at index 0 comes back to the unpartnered '('
   * forever.
   */
  lemma PrintedProductDiverges(op: char, a: nat, b: nat, fuel: nat)
    requires op == '*' || op == '/'
    ensures Parse(ToString(MakeNode(op, Number(a), Number(b))), fuel) == Diverged
  {
    PrintedNodeShape(op, a, b);
    PrintedProductShapeDiverges(ToString(MakeNode(op, Number(a), Number(b))), |NatToString(a)|, op, fuel);
  }

  /** The values of the trees above. */
  lemma ExampleValues()
    ensures Evaluate(Subtract(Number(10), Subtract(Number(3), Number(2)))) == Some(9.0)
    ensures Evaluate(Divide(Number(20), Divide(Number(4), Number(5)))) == Some(25.0)
    ensures Evaluate(Multiply(Number(2), Add(Number(3), Number(4)))) == Some(14.0)
    ensures Evaluate(Multiply(Add(Number(1), Number(2)), Number(3))) == Some(9.0)
  {
  }
}
