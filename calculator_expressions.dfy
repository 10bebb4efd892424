/**
 * The later parser snapshot (calculator-expressions.js): it strips every
 * redundant outer pair of parentheses, scans for operators right to left,
 * and has an implicit-multiplication branch. findCloseParenthesis throws
 * when there is no match.
 *
 * The additive scan can run forever, so each scan loop is given `fuel`, one
 * unit per iteration, and an exhausted scan yields `Diverged`.
 */
module CalculatorExpressions {
  import opened Window
  import opened Ast

  /**
   * What one precedence scan decides: build the node `op` over the windows
   * [start, leftEnd) and [rightStart, end), find nothing, throw, or spin.
   */
  datatype Scan = Split(op: char, leftEnd: int, rightStart: int) | NoSplit | Throws(kind: ErrorKind) | Loops

  /** A character the additive scan reacts to. */
  predicate IsMark(s: string, i: int) {
    CharIs(s, i, '+') || CharIs(s, i, '-') || CharIs(s, i, '(')
  }

  predicate NoMarks(s: string, from: int, to: int) {
    forall j :: from <= j < to ==> !IsMark(s, j)
  }

  /** A character that ends a term: ')' or a digit (what `')' || !isNaN(c)` accepts in the alphabet). */
  predicate EndsTerm(s: string, k: int) {
    CharIs(s, k, ')') || DigitAt(s, k)
  }

  /** A character that starts a term: '(' or a digit. */
  predicate StartsTerm(s: string, k: int) {
    CharIs(s, k, '(') || DigitAt(s, k)
  }

  /** The loop of hasTermBeforeParentheses, at index i going down to start. */
  function TermBeforeFrom(s: string, start: int, i: int): (r: bool)
    decreases i - start
    ensures r <==> exists k :: start <= k <= i && EndsTerm(s, k) && AllSpaces(s, k + 1, i + 1)
  {
    if i < start then false
    else if CharIs(s, i, ' ') then
      var r := TermBeforeFrom(s, start, i - 1);
      assert r ==> exists k :: start <= k <= i && EndsTerm(s, k) && AllSpaces(s, k + 1, i + 1);
      r
    else
      assert EndsTerm(s, i) ==> AllSpaces(s, i + 1, i + 1);
      EndsTerm(s, i)
  }

  /** The nearest non-space character of [start, openParenIndex) ends a term. */
  function TermBefore(s: string, start: int, openParenIndex: int): (r: bool)
    ensures r <==> exists k :: start <= k < openParenIndex && EndsTerm(s, k) && AllSpaces(s, k + 1, openParenIndex)
  {
    TermBeforeFrom(s, start, openParenIndex - 1)
  }

  /** The loop of hasTermAfterParentheses, at index i going up to end. */
  function TermAfterFrom(s: string, i: int, end: int): (r: bool)
    decreases end - i
    ensures r <==> exists k :: i <= k < end && StartsTerm(s, k) && AllSpaces(s, i, k)
  {
    if i >= end then false
    else if CharIs(s, i, ' ') then
      var r := TermAfterFrom(s, i + 1, end);
      assert r ==> exists k :: i <= k < end && StartsTerm(s, k) && AllSpaces(s, i, k);
      r
    else
      assert StartsTerm(s, i) ==> AllSpaces(s, i, i);
      StartsTerm(s, i)
  }

  /** The nearest non-space character of (closeParenIndex, end) starts a term. */
  function TermAfter(s: string, closeParenIndex: int, end: int): (r: bool)
    ensures r <==> exists k :: closeParenIndex < k < end && StartsTerm(s, k) && AllSpaces(s, closeParenIndex + 1, k)
  {
    TermAfterFrom(s, closeParenIndex + 1, end)
  }

  /** Some character of [from, to) is a '('. */
  predicate OpensAt(s: string, from: int, to: int) {
    exists k :: from <= k < to && CharIs(s, k, '(')
  }

  /**
   * The redundant-parenthesis loop: while the window starts with a '(' whose
   * partner is its last character, drop both and trim again. An unmatched
   * leading '(' makes findCloseParenthesis throw.
   */
  function StripRedundant(s: string, start: int, end: int): (r: Result<(int, int)>)
    requires 0 <= start <= end <= |s|
    decreases end - start
    ensures r.Ok? ==> start <= r.value.0 <= r.value.1 <= end
    ensures r.Ok? ==> !(CharIs(s, r.value.0, '(') && MatchingClose(s, r.value.0, r.value.1) == Some(r.value.1 - 1))
    ensures r.Ok? && r.value.0 != start ==> r.value.1 - r.value.0 <= end - start - 2
    ensures r.Err? ==> r.kind == UnmatchedParenthesis && OpensAt(s, start, end + 1)
    ensures !CharIs(s, start, '(') ==> r == Ok((start, end))
    ensures CharIs(s, start, '(') && MatchingClose(s, start, end).None? ==> r == Err(UnmatchedParenthesis)
    ensures CharIs(s, start, '(') && MatchingClose(s, start, end).Some? && MatchingClose(s, start, end).value != end - 1 ==>
              r == Ok((start, end))
  {
    if CharIs(s, start, '(') then
      match MatchingClose(s, start, end)
      case None => Err(UnmatchedParenthesis)
      case Some(c) =>
        if c == end - 1 then
          var e := TrimmedEnd(s, start + 1, end - 1);
          var b := TrimmedStart(s, start + 1, e);
          StripRedundant(s, b, e)
        else Ok((start, end))
    else Ok((start, end))
  }

  /** A partnered pair around the whole window is dropped and what is left trimmed. */
  lemma StripRedundantStep(s: string, start: int, end: int, b: int, e: int)
    requires 0 <= start <= end <= |s|
    requires CharIs(s, start, '(') && MatchingClose(s, start, end) == Some(end - 1)
    requires e == TrimmedEnd(s, start + 1, end - 1) && b == TrimmedStart(s, start + 1, e)
    ensures start < b <= e < end
    ensures StripRedundant(s, start, end) == StripRedundant(s, b, e)
  {
  }

  /** The first pass: i runs from end - 1 down to start; a '(' sends i to its partner. */
  function AdditiveScan(s: string, start: int, end: int, i: int, fuel: nat): (r: Scan)
    requires 0 <= start && i < end
    decreases fuel
    ensures r.Split? ==> start <= r.leftEnd < end && r.rightStart == r.leftEnd + 1
    ensures r.Split? ==> (r.op == '+' || r.op == '-') && CharIs(s, r.leftEnd, r.op)
    ensures r.Throws? ==> r.kind == UnmatchedParenthesis && OpensAt(s, start, end)
  {
    if i < start then NoSplit
    else if fuel == 0 then Loops
    else if CharIs(s, i, '+') || CharIs(s, i, '-') then Split(s[i], i, i + 1)
    else if CharIs(s, i, '(') then
      match MatchingClose(s, i, end)
      case None => Throws(UnmatchedParenthesis)
      case Some(c) => AdditiveScan(s, start, end, c - 1, fuel - 1)
    else AdditiveScan(s, start, end, i - 1, fuel - 1)
  }

  /**
   * The second pass: i runs from end - 1 down to start; at a '(' whose group
   * touches a term on its left or right it splits there as a multiplication.
   */
  function MultiplicativeScan(s: string, start: int, end: int, i: int): (r: Scan)
    requires 0 <= start && i < end
    decreases i - start
    ensures r.Split? ==> start <= r.leftEnd <= r.rightStart <= end && r.leftEnd < end && start < r.rightStart
    ensures r.Split? ==> r.op == '*' || r.op == '/'
    ensures r.Split? ==>
              (CharIs(s, r.leftEnd, r.op) && r.rightStart == r.leftEnd + 1) ||
              (r.op == '*' && r.leftEnd == r.rightStart &&
               ((CharIs(s, r.leftEnd, '(') && TermBefore(s, start, r.leftEnd)) ||
                (CharIs(s, r.leftEnd - 1, ')') && TermAfter(s, r.leftEnd - 1, end))))
    ensures r.NoSplit? || r.Split? || r == Throws(UnmatchedParenthesis)
    ensures r.Throws? ==> OpensAt(s, start, end)
  {
    if i < start then NoSplit
    else if CharIs(s, i, '*') || CharIs(s, i, '/') then Split(s[i], i, i + 1)
    else if CharIs(s, i, '(') then
      match MatchingClose(s, i, end)
      case None => Throws(UnmatchedParenthesis)
      case Some(c) =>
        if TermBefore(s, start, i) then Split('*', i, i)
        else if TermAfter(s, c, end) then Split('*', c + 1, c + 1)
        else MultiplicativeScan(s, start, end, i - 1)
    else MultiplicativeScan(s, start, end, i - 1)
  }

  /** parseExpressionRecursive on the window [startIndex, endIndex). */
  function ParseWindow(s: string, startIndex: int, endIndex: int, fuel: nat): (r: Outcome)
    requires 0 <= startIndex <= endIndex <= |s|
    decreases endIndex - startIndex, 2
    ensures r.Parsed? ==> !AllSpaces(s, startIndex, endIndex)
    ensures r == Failed(UnmatchedParenthesis) ==> OpensAt(s, startIndex, endIndex + 1)
  {
    var e := TrimmedEnd(s, startIndex, endIndex);
    var b := TrimmedStart(s, startIndex, e);
    match StripRedundant(s, b, e)
    case Err(k) => Failed(k)
    case Ok((a, z)) =>
      if a >= z then Failed(EmptyExpression) else ParseStripped(s, a, z, fuel)
  }

  /** What the two scans decide together: the additive pass's finding, else the multiplicative pass's. */
  function Passes(s: string, a: int, z: int, fuel: nat): (r: Scan)
    requires 0 <= a < z
    ensures r.Split? ==> a <= r.leftEnd <= r.rightStart <= z && r.leftEnd < z && a < r.rightStart
    ensures r.Split? ==> IsOperator(r.op)
    ensures r.Throws? ==> r.kind == UnmatchedParenthesis && OpensAt(s, a, z)
    ensures r.Loops? <==> AdditiveScan(s, a, z, z - 1, fuel).Loops?
  {
    var additive := AdditiveScan(s, a, z, z - 1, fuel);
    if additive.NoSplit? then MultiplicativeScan(s, a, z, z - 1) else additive
  }

  /** The passes and the literal of parseExpressionRecursive, on a trimmed and stripped, non-empty window. */
  function ParseStripped(s: string, a: int, z: int, fuel: nat): (r: Outcome)
    requires 0 <= a < z <= |s|
    decreases z - a, 1
    ensures r == Failed(UnmatchedParenthesis) ==> OpensAt(s, a, z + 1)
  {
    match Passes(s, a, z, fuel)
    case Split(op, l, m) => SplitAt(s, a, op, l, m, z, fuel)
    case Throws(k) => Failed(k)
    case Loops => Diverged
    case NoSplit =>
      match ParseNumericValue(s, a, z)
      case Ok(v) => Parsed(Number(v))
      case Err(k) => Failed(k)
  }

  /** The node `op` over [a, l) and [m, z); the left term is parsed first. */
  function SplitAt(s: string, a: int, op: char, l: int, m: int, z: int, fuel: nat): (r: Outcome)
    requires 0 <= a <= l <= m <= z <= |s| && l < z && a < m && IsOperator(op)
    decreases z - a, 0
    ensures r == Failed(UnmatchedParenthesis) ==> OpensAt(s, a, z + 1)
  {
    Join(op, ParseWindow(s, a, l, fuel), ParseWindow(s, m, z, fuel))
  }

  /**
   * A trimmed window that does not start with a '(' partnered by its last
   * character goes straight to the passes.
   */
  lemma ParseWindowUnwrapped(s: string, start: int, end: int, fuel: nat)
    requires 0 <= start < end <= |s|
    requires !CharIs(s, start, ' ') && !CharIs(s, end - 1, ' ')
    requires CharIs(s, start, '(') ==> MatchingClose(s, start, end).Some? && MatchingClose(s, start, end).value != end - 1
    ensures ParseWindow(s, start, end, fuel) == ParseStripped(s, start, end, fuel)
  {
    assert TrimmedEnd(s, start, end) == end;
    assert TrimmedStart(s, start, end) == start;
    assert StripRedundant(s, start, end) == Ok((start, end));
  }

  /** Spaces around a window do not change what it parses to. */
  lemma ParseIgnoresSurroundingSpaces(s: string, start: int, b: int, e: int, end: int, fuel: nat)
    requires 0 <= start <= b < e <= end <= |s|
    requires AllSpaces(s, start, b) && AllSpaces(s, e, end)
    requires !CharIs(s, b, ' ') && !CharIs(s, e - 1, ' ')
    ensures ParseWindow(s, start, end, fuel) == ParseWindow(s, b, e, fuel)
  {
    TrimmedEndSkipsSpaces(s, start, e, end);
    TrimmedStartSkipsSpaces(s, start, b, e);
    TrimmedEndSkipsSpaces(s, b, e, e);
    TrimmedStartSkipsSpaces(s, b, b, e);
  }

  /** parseExpression: the whole input. */
  function Parse(s: string, fuel: nat): (r: Outcome)
    ensures r.Parsed? ==> !AllSpaces(s, 0, |s|)
    ensures r == Failed(UnmatchedParenthesis) ==> '(' in s
  {
    ParseWindow(s, 0, |s|, fuel)
  }

  // ---------------------------------------------------------------------
  // The additive scan

  /** Over characters it does not react to, the scan simply walks down, one unit of fuel a step. */
  lemma {:induction false} AdditiveScanWalks(s: string, start: int, end: int, i: int, k: int, fuel: nat)
    requires 0 <= start <= k + 1 && k <= i < end
    requires NoMarks(s, k + 1, i + 1)
    requires fuel >= i - k
    ensures AdditiveScan(s, start, end, i, fuel) == AdditiveScan(s, start, end, k, fuel - (i - k))
    decreases i - k
  {
    if i > k {
      assert !IsMark(s, i);
      AdditiveScanWalks(s, start, end, i - 1, k, fuel - 1);
    }
  }

  /** Without enough fuel to walk past the unmarked characters, the scan is cut off. */
  lemma {:induction false} AdditiveScanStarves(s: string, start: int, end: int, i: int, k: int, fuel: nat)
    requires 0 <= start <= k <= i < end
    requires NoMarks(s, k + 1, i + 1)
    requires fuel <= i - k
    ensures AdditiveScan(s, start, end, i, fuel) == Loops
    decreases i - k
  {
    if fuel > 0 {
      assert !IsMark(s, i);
      AdditiveScanStarves(s, start, end, i - 1, k, fuel - 1);
    }
  }

  /** A window without '+', '-' or '(' falls through the additive pass. */
  lemma AdditiveScanFallsThrough(s: string, start: int, end: int, fuel: nat)
    requires 0 <= start <= end
    requires NoMarks(s, start, end)
    requires fuel >= end - start
    ensures AdditiveScan(s, start, end, end - 1, fuel) == NoSplit
  {
    if start < end {
      AdditiveScanWalks(s, start, end, end - 1, start - 1, fuel);
    }
  }

  /** When the rightmost '+', '-' or '(' of the window is an operator, the window splits there. */
  lemma AdditiveScanSplitsAtRightmost(s: string, start: int, end: int, k: int, fuel: nat)
    requires 0 <= start <= k < end
    requires CharIs(s, k, '+') || CharIs(s, k, '-')
    requires NoMarks(s, k + 1, end)
    requires fuel > end - 1 - k
    ensures AdditiveScan(s, start, end, end - 1, fuel) == Split(s[k], k, k + 1)
  {
    AdditiveScanWalks(s, start, end, end - 1, k, fuel);
  }

  /** When the rightmost '+', '-' or '(' is a '(' without partner, the scan throws. */
  lemma AdditiveScanThrowsAtUnmatched(s: string, start: int, end: int, k: int, fuel: nat)
    requires 0 <= start <= k < end
    requires CharIs(s, k, '(') && MatchingClose(s, k, end).None?
    requires NoMarks(s, k + 1, end)
    requires fuel > end - 1 - k
    ensures AdditiveScan(s, start, end, end - 1, fuel) == Throws(UnmatchedParenthesis)
  {
    AdditiveScanWalks(s, start, end, end - 1, k, fuel);
  }

  /**
   * When the rightmost '+', '-' or '(' is a '(' with a partner, the scan
   * never ends, whatever the fuel: the jump to the partner lands on
   * characters already seen, and walking down them leads back to the '('.
   */
  lemma {:induction false} AdditiveScanLoopsAtGroup(s: string, start: int, end: int, k: int, fuel: nat)
    requires 0 <= start <= k < end
    requires CharIs(s, k, '(') && MatchingClose(s, k, end).Some?
    requires NoMarks(s, k + 1, end)
    ensures AdditiveScan(s, start, end, k, fuel) == Loops
    ensures AdditiveScan(s, start, end, end - 1, fuel) == Loops
    decreases fuel
  {
    var c := MatchingClose(s, k, end).value;
    assert k < c;
    if fuel > 0 {
      assert AdditiveScan(s, start, end, k, fuel) == AdditiveScan(s, start, end, c - 1, fuel - 1);
      if fuel - 1 > c - 1 - k {
        AdditiveScanWalks(s, start, end, c - 1, k, fuel - 1);
        AdditiveScanLoopsAtGroup(s, start, end, k, fuel - 1 - (c - 1 - k));
      } else {
        AdditiveScanStarves(s, start, end, c - 1, k, fuel - 1);
      }
    }
    if fuel > end - 1 - k {
      AdditiveScanWalks(s, start, end, end - 1, k, fuel);
      if end - 1 > k {
        AdditiveScanLoopsAtGroup(s, start, end, k, fuel - (end - 1 - k));
      }
    } else {
      AdditiveScanStarves(s, start, end, end - 1, k, fuel);
    }
  }

  /**
   * A window holding any '+', '-' or '(' never falls through the additive
   * pass. So the multiplicative pass, and the implicit multiplication in it,
   * only ever sees windows without '('.
   */
  lemma {:induction false} AdditiveScanNeverFallsThroughMark(s: string, start: int, end: int, i: int, j: int, fuel: nat)
    requires 0 <= start <= j <= i < end
    requires IsMark(s, j)
    ensures AdditiveScan(s, start, end, i, fuel) != NoSplit
    decreases fuel
  {
    if fuel > 0 && !(CharIs(s, i, '+') || CharIs(s, i, '-')) {
      if CharIs(s, i, '(') {
        match MatchingClose(s, i, end)
        case None =>
        case Some(c) =>
          assert i < c;
          AdditiveScanNeverFallsThroughMark(s, start, end, c - 1, i, fuel - 1);
      } else {
        AdditiveScanNeverFallsThroughMark(s, start, end, i - 1, j, fuel - 1);
      }
    }
  }

  // ---------------------------------------------------------------------
  // The multiplicative scan and whole windows without parentheses

  predicate IsFactorOp(s: string, i: int) {
    CharIs(s, i, '*') || CharIs(s, i, '/')
  }

  predicate NoFactorOps(s: string, from: int, to: int) {
    forall j :: from <= j < to ==> !IsFactorOp(s, j)
  }

  /** Over characters other than '*', '/' and '(' the multiplicative scan walks down. */
  lemma {:induction false} MultiplicativeScanWalks(s: string, start: int, end: int, i: int, k: int)
    requires 0 <= start <= k + 1 && k <= i < end
    requires NoFactorOps(s, k + 1, i + 1) && NoMarks(s, k + 1, i + 1)
    ensures MultiplicativeScan(s, start, end, i) == MultiplicativeScan(s, start, end, k)
    decreases i - k
  {
    if i > k {
      assert !IsFactorOp(s, i) && !IsMark(s, i);
      MultiplicativeScanWalks(s, start, end, i - 1, k);
    }
  }

  /** A window the passes split at the operator at k is the node over the two sides. */
  lemma ParseStrippedAtSplit(s: string, a: int, z: int, k: int, fuel: nat)
    requires 0 <= a <= k < z <= |s|
    requires Passes(s, a, z, fuel) == Split(s[k], k, k + 1)
    ensures IsOperator(s[k])
    ensures ParseStripped(s, a, z, fuel) == SplitAt(s, a, s[k], k, k + 1, z, fuel)
  {
  }

  /** A trimmed window left alone by the strip loop splits at its rightmost '+' or '-' when no '(' follows. */
  lemma ParseSplitsAtRightmostAdditive(s: string, start: int, end: int, k: int, fuel: nat)
    requires 0 <= start <= k < end <= |s|
    requires !CharIs(s, start, ' ') && !CharIs(s, end - 1, ' ')
    requires CharIs(s, start, '(') ==> MatchingClose(s, start, end).Some? && MatchingClose(s, start, end).value != end - 1
    requires CharIs(s, k, '+') || CharIs(s, k, '-')
    requires NoMarks(s, k + 1, end)
    requires fuel > end - 1 - k
    ensures ParseWindow(s, start, end, fuel) ==
            Join(s[k], ParseWindow(s, start, k, fuel), ParseWindow(s, k + 1, end, fuel))
  {
    AdditiveScanSplitsAtRightmost(s, start, end, k, fuel);
    assert Passes(s, start, end, fuel) == Split(s[k], k, k + 1);
    ParseStrippedAtSplit(s, start, end, k, fuel);
    ParseWindowUnwrapped(s, start, end, fuel);
  }

  /**
   * A trimmed window that the strip loop leaves alone and whose rightmost
   * '+', '-' or '(' is a '(' with a partner makes parseExpressionRecursive
   * spin, whatever the fuel.
   */
  lemma ParseDivergesAtGroup(s: string, start: int, end: int, k: int, fuel: nat)
    requires 0 <= start <= k < end <= |s|
    requires !CharIs(s, start, ' ') && !CharIs(s, end - 1, ' ')
    requires CharIs(s, start, '(') ==> MatchingClose(s, start, end).Some? && MatchingClose(s, start, end).value != end - 1
    requires CharIs(s, k, '(') && MatchingClose(s, k, end).Some?
    requires NoMarks(s, k + 1, end)
    ensures ParseWindow(s, start, end, fuel) == Diverged
  {
    AdditiveScanLoopsAtGroup(s, start, end, k, fuel);
    assert Passes(s, start, end, fuel) == Loops;
    ParseWindowUnwrapped(s, start, end, fuel);
  }

  /** A trimmed window without '+', '-' or '(' splits at its rightmost '*' or '/'. */
  lemma ParseSplitsAtRightmostMultiplicative(s: string, start: int, end: int, k: int, fuel: nat)
    requires 0 <= start <= k < end <= |s|
    requires !CharIs(s, start, ' ') && !CharIs(s, end - 1, ' ')
    requires NoMarks(s, start, end)
    requires IsFactorOp(s, k) && NoFactorOps(s, k + 1, end)
    requires fuel >= end - start
    ensures ParseWindow(s, start, end, fuel) ==
            Join(s[k], ParseWindow(s, start, k, fuel), ParseWindow(s, k + 1, end, fuel))
  {
    assert !IsMark(s, start);
    AdditiveScanFallsThrough(s, start, end, fuel);
    MultiplicativeScanWalks(s, start, end, end - 1, k);
    assert Passes(s, start, end, fuel) == Split(s[k], k, k + 1);
    ParseStrippedAtSplit(s, start, end, k, fuel);
    ParseWindowUnwrapped(s, start, end, fuel);
  }

  /** A trimmed window that the strip loop reduces to the non-empty [a, z) parses as that. */
  lemma ParseWindowStripped(s: string, start: int, end: int, a: int, z: int, fuel: nat)
    requires 0 <= start < end <= |s|
    requires !CharIs(s, start, ' ') && !CharIs(s, end - 1, ' ')
    requires StripRedundant(s, start, end) == Ok((a, z)) && a < z
    ensures ParseWindow(s, start, end, fuel) == ParseStripped(s, a, z, fuel)
  {
    assert TrimmedEnd(s, start, end) == end;
    assert TrimmedStart(s, start, end) == start;
  }

  /**
   * A trimmed window left alone by the strip loop whose rightmost '+', '-'
   * or '(' is a '(' without partner makes findCloseParenthesis throw.
   */
  lemma ParseThrowsAtUnmatched(s: string, start: int, end: int, k: int, fuel: nat)
    requires 0 <= start <= k < end <= |s|
    requires !CharIs(s, start, ' ') && !CharIs(s, end - 1, ' ')
    requires CharIs(s, start, '(') ==> MatchingClose(s, start, end).Some? && MatchingClose(s, start, end).value != end - 1
    requires CharIs(s, k, '(') && MatchingClose(s, k, end).None?
    requires NoMarks(s, k + 1, end)
    requires fuel > end - 1 - k
    ensures ParseWindow(s, start, end, fuel) == Failed(UnmatchedParenthesis)
  {
    AdditiveScanThrowsAtUnmatched(s, start, end, k, fuel);
    assert Passes(s, start, end, fuel) == Throws(UnmatchedParenthesis);
    ParseWindowUnwrapped(s, start, end, fuel);
  }

  /** Two parsed sides of the rightmost '+' or '-' make that operator's node. */
  lemma ParseNodeAtRightmostAdditive(s: string, start: int, end: int, k: int, fuel: nat, x: Expr, y: Expr)
    requires 0 <= start <= k < end <= |s|
    requires !CharIs(s, start, ' ') && !CharIs(s, end - 1, ' ')
    requires CharIs(s, start, '(') ==> MatchingClose(s, start, end).Some? && MatchingClose(s, start, end).value != end - 1
    requires CharIs(s, k, '+') || CharIs(s, k, '-')
    requires NoMarks(s, k + 1, end)
    requires fuel > end - 1 - k
    requires ParseWindow(s, start, k, fuel) == Parsed(x) && ParseWindow(s, k + 1, end, fuel) == Parsed(y)
    ensures ParseWindow(s, start, end, fuel) == Parsed(MakeNode(s[k], x, y))
  {
    ParseSplitsAtRightmostAdditive(s, start, end, k, fuel);
  }

  /** A left side of the rightmost '+' or '-' that does not parse decides the window. */
  lemma ParseLeftFailsAtRightmostAdditive(s: string, start: int, end: int, k: int, fuel: nat)
    requires 0 <= start <= k < end <= |s|
    requires !CharIs(s, start, ' ') && !CharIs(s, end - 1, ' ')
    requires CharIs(s, start, '(') ==> MatchingClose(s, start, end).Some? && MatchingClose(s, start, end).value != end - 1
    requires CharIs(s, k, '+') || CharIs(s, k, '-')
    requires NoMarks(s, k + 1, end)
    requires fuel > end - 1 - k
    requires !ParseWindow(s, start, k, fuel).Parsed?
    ensures ParseWindow(s, start, end, fuel) == ParseWindow(s, start, k, fuel)
  {
    ParseSplitsAtRightmostAdditive(s, start, end, k, fuel);
  }

  /** Two parsed sides of the rightmost '*' or '/' of a window without marks make that operator's node. */
  lemma ParseNodeAtRightmostMultiplicative(s: string, start: int, end: int, k: int, fuel: nat, x: Expr, y: Expr)
    requires 0 <= start <= k < end <= |s|
    requires !CharIs(s, start, ' ') && !CharIs(s, end - 1, ' ')
    requires NoMarks(s, start, end)
    requires IsFactorOp(s, k) && NoFactorOps(s, k + 1, end)
    requires fuel >= end - start
    requires ParseWindow(s, start, k, fuel) == Parsed(x) && ParseWindow(s, k + 1, end, fuel) == Parsed(y)
    ensures ParseWindow(s, start, end, fuel) == Parsed(MakeNode(s[k], x, y))
  {
    ParseSplitsAtRightmostMultiplicative(s, start, end, k, fuel);
  }

  /**
   * A window without '+', '-', '(' , '*' and '/' is read by parseNumericValue.
   * (An empty window followed by a '(' is the exception: the strip loop's
   * findCloseParenthesis then throws.)
   */
  lemma ParseLiteralWindow(s: string, start: int, end: int, fuel: nat)
    requires 0 <= start <= end <= |s|
    requires NoMarks(s, start, end) && NoFactorOps(s, start, end)
    requires !CharIs(s, start, '(')
    requires fuel >= end - start
    ensures ParseWindow(s, start, end, fuel) ==
            match ParseNumericValue(s, start, end)
            case Ok(v) => Parsed(Number(v))
            case Err(k) => Failed(k)
  {
    var e := TrimmedEnd(s, start, end);
    var b := TrimmedStart(s, start, e);
    if b < e {
      assert !IsMark(s, b);
      assert StripRedundant(s, b, e) == Ok((b, e));
      assert TrimmedEnd(s, b, e) == e;
      assert TrimmedStart(s, b, e) == b;
      AdditiveScanFallsThrough(s, b, e, fuel);
      MultiplicativeScanWalks(s, b, e, e - 1, b - 1);
      assert Passes(s, b, e, fuel) == NoSplit;
    }
  }

  /** A non-empty run of digits parses to the number it spells. */
  lemma ParseDigits(s: string, start: int, end: int, fuel: nat)
    requires 0 <= start < end <= |s|
    requires DigitsOnly(s, start, end)
    requires fuel >= end - start
    ensures AllDigits(s[start..end])
    ensures ParseWindow(s, start, end, fuel) == Parsed(Number(DecimalValue(s[start..end])))
  {
    forall j | start <= j < end
      ensures !IsMark(s, j) && !IsFactorOp(s, j)
    {
      assert DigitAt(s, j);
    }
    forall k | 0 <= k < end - start
      ensures IsDigit(s[start..end][k])
    {
      assert DigitAt(s, start + k);
    }
    assert DigitAt(s, start) && DigitAt(s, end - 1);
    assert TrimmedEnd(s, start, end) == end;
    assert TrimmedStart(s, start, end) == start;
    assert TrimmedText(s, start, end) == s[start..end];
    ParseLiteralWindow(s, start, end, fuel);
  }

  // ---------------------------------------------------------------------
  // Fuel: an outcome reached with some fuel stays the same with more

  /** An additive scan that ends with some fuel ends the same way with more. */
  lemma {:induction false} AdditiveScanMonotone(s: string, start: int, end: int, i: int, fuel: nat, more: nat)
    requires 0 <= start && i < end && fuel <= more
    requires AdditiveScan(s, start, end, i, fuel) != Loops
    ensures AdditiveScan(s, start, end, i, more) == AdditiveScan(s, start, end, i, fuel)
    decreases fuel
  {
    if i >= start && !(CharIs(s, i, '+') || CharIs(s, i, '-')) {
      if CharIs(s, i, '(') {
        match MatchingClose(s, i, end)
        case None =>
        case Some(c) => AdditiveScanMonotone(s, start, end, c - 1, fuel - 1, more - 1);
      } else {
        AdditiveScanMonotone(s, start, end, i - 1, fuel - 1, more - 1);
      }
    }
  }

  /** A window that parses or fails with some fuel does the same with more. */
  lemma {:induction false} ParseWindowMonotone(s: string, startIndex: int, endIndex: int, fuel: nat, more: nat)
    requires 0 <= startIndex <= endIndex <= |s| && fuel <= more
    requires ParseWindow(s, startIndex, endIndex, fuel) != Diverged
    ensures ParseWindow(s, startIndex, endIndex, more) == ParseWindow(s, startIndex, endIndex, fuel)
    decreases endIndex - startIndex, 2
  {
    var e := TrimmedEnd(s, startIndex, endIndex);
    var b := TrimmedStart(s, startIndex, e);
    match StripRedundant(s, b, e)
    case Err(_) =>
    case Ok((a, z)) =>
      if a < z {
        ParseStrippedMonotone(s, a, z, fuel, more);
      }
  }

  lemma {:induction false} ParseStrippedMonotone(s: string, a: int, z: int, fuel: nat, more: nat)
    requires 0 <= a < z <= |s| && fuel <= more
    requires ParseStripped(s, a, z, fuel) != Diverged
    ensures ParseStripped(s, a, z, more) == ParseStripped(s, a, z, fuel)
    decreases z - a, 1
  {
    AdditiveScanMonotone(s, a, z, z - 1, fuel, more);
    assert Passes(s, a, z, more) == Passes(s, a, z, fuel);
    match Passes(s, a, z, fuel)
    case Split(op, l, m) => SplitAtMonotone(s, a, op, l, m, z, fuel, more);
    case Throws(_) =>
    case NoSplit =>
  }

  lemma {:induction false} SplitAtMonotone(s: string, a: int, op: char, l: int, m: int, z: int, fuel: nat, more: nat)
    requires 0 <= a <= l <= m <= z <= |s| && l < z && a < m && IsOperator(op) && fuel <= more
    requires SplitAt(s, a, op, l, m, z, fuel) != Diverged
    ensures SplitAt(s, a, op, l, m, z, more) == SplitAt(s, a, op, l, m, z, fuel)
    decreases z - a, 0
  {
    ParseWindowMonotone(s, a, l, fuel, more);
    if ParseWindow(s, a, l, fuel).Parsed? {
      ParseWindowMonotone(s, m, z, fuel, more);
    }
  }

  /** parseExpression with more fuel: a tree or an error, once reached, stays. */
  lemma ParseMonotone(s: string, fuel: nat, more: nat)
    requires fuel <= more && Parse(s, fuel) != Diverged
    ensures Parse(s, more) == Parse(s, fuel)
  {
    ParseWindowMonotone(s, 0, |s|, fuel, more);
  }

  // ---------------------------------------------------------------------
  // The source's loops, proved against the functions above

  /** findCloseParenthesis; None stands for the ExpressionParsingError it throws. */
  method FindCloseParenthesis(s: string, openParenIndex: int, endIndex: int) returns (r: Option<int>)
    ensures r == MatchingClose(s, openParenIndex, endIndex)
  {
    var nestedDepth := 0;
    var i := openParenIndex;
    while i < endIndex
      invariant openParenIndex <= i
      invariant nestedDepth == Depth(s, openParenIndex, i)
      invariant MatchFrom(s, openParenIndex, endIndex, i, nestedDepth) == MatchingClose(s, openParenIndex, endIndex)
      decreases endIndex - i
    {
      if CharIs(s, i, '(') {
        nestedDepth := nestedDepth + 1;
      } else if CharIs(s, i, ')') {
        nestedDepth := nestedDepth - 1;
        if nestedDepth == 0 {
          return Some(i);
        }
      }
      i := i + 1;
    }
    return None;
  }

  method HasTermBeforeParentheses(s: string, startIndex: int, openParenIndex: int) returns (r: bool)
    ensures r == TermBefore(s, startIndex, openParenIndex)
  {
    var i := openParenIndex - 1;
    while i >= startIndex
      invariant TermBeforeFrom(s, startIndex, i) == TermBefore(s, startIndex, openParenIndex)
      decreases i - startIndex
    {
      if !CharIs(s, i, ' ') {
        if CharIs(s, i, ')') {
          return true;
        }
        return DigitAt(s, i);
      }
      i := i - 1;
    }
    return false;
  }

  method HasTermAfterParentheses(s: string, closeParenIndex: int, endIndex: int) returns (r: bool)
    ensures r == TermAfter(s, closeParenIndex, endIndex)
  {
    var i := closeParenIndex + 1;
    while i < endIndex
      invariant TermAfterFrom(s, i, endIndex) == TermAfter(s, closeParenIndex, endIndex)
      decreases endIndex - i
    {
      if !CharIs(s, i, ' ') {
        if CharIs(s, i, '(') {
          return true;
        }
        return DigitAt(s, i);
      }
      i := i + 1;
    }
    return false;
  }

  /** The redundant-parenthesis loop of parseExpressionRecursive. */
  method StripRedundantParentheses(s: string, startIndex: int, endIndex: int) returns (r: Result<(int, int)>)
    requires 0 <= startIndex <= endIndex <= |s|
    ensures r == StripRedundant(s, startIndex, endIndex)
  {
    var start, end := startIndex, endIndex;
    while CharIs(s, start, '(')
      invariant startIndex <= start <= end <= endIndex
      invariant StripRedundant(s, start, end) == StripRedundant(s, startIndex, endIndex)
      decreases end - start
    {
      var close := FindCloseParenthesis(s, start, end);
      if close.None? {
        return Err(UnmatchedParenthesis);
      }
      if close.value != end - 1 {
        break;
      }
      var trimmedEnd := TrimTrailingWhitespace(s, start + 1, end - 1);
      var trimmedStart := TrimLeadingWhitespace(s, start + 1, trimmedEnd);
      StripRedundantStep(s, start, end, trimmedStart, trimmedEnd);
      start, end := trimmedStart, trimmedEnd;
    }
    return Ok((start, end));
  }

  /** The first loop of parseExpressionRecursive, cut off after `fuel` iterations. */
  method AdditivePass(s: string, start: int, end: int, fuel: nat) returns (r: Scan)
    requires 0 <= start < end
    ensures r == AdditiveScan(s, start, end, end - 1, fuel)
  {
    var i := end - 1;
    var steps := fuel;
    while i >= start
      invariant i < end
      invariant AdditiveScan(s, start, end, i, steps) == AdditiveScan(s, start, end, end - 1, fuel)
      decreases steps
    {
      if steps == 0 {
        return Loops;
      }
      if CharIs(s, i, '+') || CharIs(s, i, '-') {
        return Split(s[i], i, i + 1);
      }
      if CharIs(s, i, '(') {
        var close := FindCloseParenthesis(s, i, end);
        if close.None? {
          return Throws(UnmatchedParenthesis);
        }
        i := close.value;
      }
      i := i - 1;
      steps := steps - 1;
    }
    return NoSplit;
  }

  /** The second loop of parseExpressionRecursive. */
  method MultiplicativePass(s: string, start: int, end: int) returns (r: Scan)
    requires 0 <= start < end
    ensures r == MultiplicativeScan(s, start, end, end - 1)
  {
    var i := end - 1;
    while i >= start
      invariant i < end
      invariant MultiplicativeScan(s, start, end, i) == MultiplicativeScan(s, start, end, end - 1)
      decreases i - start
    {
      if CharIs(s, i, '*') || CharIs(s, i, '/') {
        return Split(s[i], i, i + 1);
      }
      if CharIs(s, i, '(') {
        var close := FindCloseParenthesis(s, i, end);
        if close.None? {
          return Throws(UnmatchedParenthesis);
        }
        var before := HasTermBeforeParentheses(s, start, i);
        if before {
          return Split('*', i, i);
        }
        var after := HasTermAfterParentheses(s, close.value, end);
        if after {
          return Split('*', close.value + 1, close.value + 1);
        }
      }
      i := i - 1;
    }
    return NoSplit;
  }

  /** parseExpressionRecursive: trim, strip the redundant parentheses, refuse an empty window. */
  method ParseExpressionRecursive(s: string, startIndex: int, endIndex: int, fuel: nat) returns (r: Outcome)
    requires 0 <= startIndex <= endIndex <= |s|
    decreases endIndex - startIndex, 1
    ensures r == ParseWindow(s, startIndex, endIndex, fuel)
  {
    var end := TrimTrailingWhitespace(s, startIndex, endIndex);
    var start := TrimLeadingWhitespace(s, startIndex, end);
    var stripped := StripRedundantParentheses(s, start, end);
    if stripped.Err? {
      return Failed(stripped.kind);
    }
    start, end := stripped.value.0, stripped.value.1;
    if start >= end {
      return Failed(EmptyExpression);
    }
    r := ParseOperators(s, start, end, fuel);
  }

  /**
   * The rest of parseExpressionRecursive: split at what the first pass finds,
   * else at what the second pass finds, else read a literal. The left term is
   * parsed before the right one.
   */
  method ParseOperators(s: string, start: int, end: int, fuel: nat) returns (r: Outcome)
    requires 0 <= start < end <= |s|
    decreases end - start, 0
    ensures r == ParseStripped(s, start, end, fuel)
  {
    var scan := AdditivePass(s, start, end, fuel);
    if scan.NoSplit? {
      scan := MultiplicativePass(s, start, end);
      if scan.NoSplit? {
        var numericTerm := ReadNumericValue(s, start, end);
        match numericTerm
        case Ok(v) => return Parsed(Number(v));
        case Err(k) => return Failed(k);
      }
    }
    match scan
    case Throws(k) => return Failed(k);
    case Loops => return Diverged;
    case Split(op, leftEnd, rightStart) =>
      var term1 := ParseExpressionRecursive(s, start, leftEnd, fuel);
      if !term1.Parsed? {
        return term1;
      }
      var term2 := ParseExpressionRecursive(s, rightStart, end, fuel);
      if !term2.Parsed? {
        return term2;
      }
      return Parsed(MakeNode(op, term1.expr, term2.expr));
  }

  /** parseExpression. */
  method ParseExpression(s: string, fuel: nat) returns (r: Outcome)
    ensures r == Parse(s, fuel)
  {
    r := ParseExpressionRecursive(s, 0, |s|, fuel);
  }
}
