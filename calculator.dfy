/**
 * The earlier parser snapshot (calculator.js): it strips one outer '(' … ')'
 * pair without checking that the two belong together, scans for operators
 * left to right, and its findCloseParenthesis answers -1 when there is no
 * partner. The scan then sets its index to -1, and the loop's increment
 * restarts it at index 0 of the whole string, whatever the window.
 *
 * Such a scan can run forever, so each scan loop is given `fuel`, one unit
 * per iteration, and an exhausted scan yields `Diverged`.
 */
module Calculator {
  import opened Window
  import opened Ast

  /** The two passes: '+' and '-' first, then '*' and '/'. */
  datatype Tier = Additive | Multiplicative

  /** What one pass decides: split at the operator at index `at`, find none, or spin. */
  datatype Scan = Split(at: int) | NoSplit | Loops

  predicate IsTierOp(tier: Tier, s: string, i: int) {
    match tier
    case Additive => CharIs(s, i, '+') || CharIs(s, i, '-')
    case Multiplicative => CharIs(s, i, '*') || CharIs(s, i, '/')
  }

  /** What findCloseParenthesis returns: the partner's index, or -1. */
  function CloseIndex(s: string, openParenIndex: int, endIndex: int): (r: int)
    ensures r == -1 <==> MatchingClose(s, openParenIndex, endIndex).None?
    ensures r != -1 ==> MatchingClose(s, openParenIndex, endIndex) == Some(r)
  {
    match MatchingClose(s, openParenIndex, endIndex)
    case Some(c) => c
    case None => -1
  }

  /**
   * One pass, at index i. Only the loop condition `i < endIndex` bounds i:
   * the window's start plays no part once the loop has begun.
   */
  function ForwardScan(tier: Tier, s: string, end: int, i: int, fuel: nat): (r: Scan)
    requires 0 <= i
    decreases fuel
    ensures r.Split? ==> 0 <= r.at < end && IsTierOp(tier, s, r.at)
  {
    if i >= end then NoSplit
    else if fuel == 0 then Loops
    else if IsTierOp(tier, s, i) then Split(i)
    else if CharIs(s, i, '(') then ForwardScan(tier, s, end, CloseIndex(s, i, end) + 1, fuel - 1)
    else ForwardScan(tier, s, end, i + 1, fuel - 1)
  }

  /**
   * The single strip: when the window's first character is '(' and its last
   * is ')', drop both and trim, whether or not they are partners.
   */
  function StripOnce(s: string, start: int, end: int): (w: (int, int))
    ensures !(CharIs(s, start, '(') && CharIs(s, end - 1, ')')) ==> w == (start, end)
    ensures CharIs(s, start, '(') && CharIs(s, end - 1, ')') ==> start < w.0 && w.1 < end
    ensures CharIs(s, start, '(') && CharIs(s, end - 1, ')') ==>
              AllSpaces(s, start + 1, w.0) && AllSpaces(s, w.1, end - 1)
    ensures CharIs(s, start, '(') && CharIs(s, end - 1, ')') && w.0 < w.1 ==>
              !CharIs(s, w.0, ' ') && !CharIs(s, w.1 - 1, ' ')
  {
    if CharIs(s, start, '(') && CharIs(s, end - 1, ')') then
      var e := TrimmedEnd(s, start + 1, end - 1);
      var b := TrimmedStart(s, start + 1, e);
      (b, e)
    else (start, end)
  }

  /** parseExpressionRecursive on the window [startIndex, endIndex), which may be inverted. */
  function ParseWindow(s: string, startIndex: int, endIndex: int, fuel: nat): (r: Outcome)
    requires 0 <= startIndex <= |s| && 0 <= endIndex <= |s|
    decreases if endIndex > startIndex then endIndex - startIndex else 0, 2
    ensures r.Parsed? ==> startIndex < endIndex
    ensures r != Failed(UnmatchedParenthesis)
  {
    var e := TrimmedEnd(s, startIndex, endIndex);
    var b := TrimmedStart(s, startIndex, e);
    var (a, z) := StripOnce(s, b, e);
    if a >= z then Failed(EmptyExpression) else ParseStripped(s, a, z, fuel)
  }

  /** The two passes and the literal, on a non-empty window. */
  function ParseStripped(s: string, a: int, z: int, fuel: nat): (r: Outcome)
    requires 0 <= a < z <= |s|
    decreases z - a, 1
    ensures r != Failed(UnmatchedParenthesis)
  {
    match ForwardScan(Additive, s, z, a, fuel)
    case Split(i) => SplitAt(s, a, i, z, fuel)
    case Loops => Diverged
    case NoSplit =>
      match ForwardScan(Multiplicative, s, z, a, fuel)
      case Split(i) => SplitAt(s, a, i, z, fuel)
      case Loops => Diverged
      case NoSplit =>
        match ParseNumericValue(s, a, z)
        case Ok(v) => Parsed(Number(v))
        case Err(k) => Failed(k)
  }

  /** The node over [a, i) and [i + 1, z); the left term is parsed first. */
  function SplitAt(s: string, a: int, i: int, z: int, fuel: nat): (r: Outcome)
    requires 0 <= a < z <= |s| && 0 <= i < z && IsOperator(s[i])
    decreases z - a, 0
    ensures r != Failed(UnmatchedParenthesis)
  {
    var term1 := ParseWindow(s, a, i, fuel);
    if !term1.Parsed? then term1 else Join(s[i], term1, ParseWindow(s, i + 1, z, fuel))
  }

  /** Spaces around a window do not change what it parses to. */
  lemma ParseIgnoresSurroundingSpaces(s: string, start: int, b: int, e: int, end: int, fuel: nat)
    requires 0 <= start <= b < e <= end <= |s|
    requires AllSpaces(s, start, b) && AllSpaces(s, e, end)
    requires !CharIs(s, b, ' ') && !CharIs(s, e - 1, ' ')
    ensures ParseWindow(s, start, end, fuel) == ParseWindow(s, b, e, fuel)
  {
    TrimmedEndSkipsSpaces(s, start, e, end);
    TrimmedStartSkipsSpaces(s, start, b, e);
    TrimmedEndSkipsSpaces(s, b, e, e);
    TrimmedStartSkipsSpaces(s, b, b, e);
  }

  /** parseExpression: the whole input. */
  function Parse(s: string, fuel: nat): (r: Outcome)
    ensures r.Parsed? ==> |s| > 0
    ensures r != Failed(UnmatchedParenthesis)
  {
    ParseWindow(s, 0, |s|, fuel)
  }

  // ---------------------------------------------------------------------
  // The scans

  /** Over characters that are neither the pass's operators nor '(', the scan walks up. */
  lemma {:induction false} ForwardScanWalks(tier: Tier, s: string, end: int, i: int, k: int, fuel: nat)
    requires 0 <= i <= k <= end
    requires forall j :: i <= j < k ==> !IsTierOp(tier, s, j) && !CharIs(s, j, '(')
    requires fuel >= k - i
    ensures ForwardScan(tier, s, end, i, fuel) == ForwardScan(tier, s, end, k, fuel - (k - i))
    decreases k - i
  {
    if i < k {
      ForwardScanWalks(tier, s, end, i + 1, k, fuel - 1);
    }
  }

  /** Without the fuel to walk that far, the scan is cut off. */
  lemma {:induction false} ForwardScanStarves(tier: Tier, s: string, end: int, i: int, k: int, fuel: nat)
    requires 0 <= i <= k <= end
    requires forall j :: i <= j < k ==> !IsTierOp(tier, s, j) && !CharIs(s, j, '(')
    requires fuel < k - i
    ensures ForwardScan(tier, s, end, i, fuel) == Loops
    decreases k - i
  {
    if fuel > 0 {
      ForwardScanStarves(tier, s, end, i + 1, k, fuel - 1);
    }
  }

  /** A '(' with a partner is skipped whole: the scan goes on after the partner. */
  lemma ForwardScanSkipsGroup(tier: Tier, s: string, end: int, i: int, fuel: nat)
    requires 0 <= i < end && fuel > 0
    requires CharIs(s, i, '(') && MatchingClose(s, i, end).Some?
    ensures ForwardScan(tier, s, end, i, fuel) ==
            ForwardScan(tier, s, end, MatchingClose(s, i, end).value + 1, fuel - 1)
  {
  }

  /** A '(' without partner sends the scan back to index 0 of the whole input. */
  lemma ForwardScanRestartsAtZero(tier: Tier, s: string, end: int, i: int, fuel: nat)
    requires 0 <= i < end && fuel > 0
    requires CharIs(s, i, '(') && MatchingClose(s, i, end).None?
    ensures ForwardScan(tier, s, end, i, fuel) == ForwardScan(tier, s, end, 0, fuel - 1)
  {
  }

  /**
   * When the first '(' or operator of the pass from index 0 is a '(' without
   * partner, the scan comes back to it forever, whatever the fuel.
   */
  lemma {:induction false} ForwardScanLoopsAtUnmatched(tier: Tier, s: string, end: int, p: int, fuel: nat)
    requires 0 <= p < end
    requires CharIs(s, p, '(') && MatchingClose(s, p, end).None?
    requires forall j :: 0 <= j < p ==> !IsTierOp(tier, s, j) && !CharIs(s, j, '(')
    ensures ForwardScan(tier, s, end, p, fuel) == Loops
    ensures ForwardScan(tier, s, end, 0, fuel) == Loops
    decreases fuel
  {
    if fuel > 0 {
      ForwardScanRestartsAtZero(tier, s, end, p, fuel);
      if fuel - 1 >= p {
        ForwardScanWalks(tier, s, end, 0, p, fuel - 1);
        ForwardScanLoopsAtUnmatched(tier, s, end, p, fuel - 1 - p);
      } else {
        ForwardScanStarves(tier, s, end, 0, p, fuel - 1);
      }
    }
    if fuel >= p {
      ForwardScanWalks(tier, s, end, 0, p, fuel);
      if p > 0 {
        ForwardScanLoopsAtUnmatched(tier, s, end, p, fuel - p);
      }
    } else {
      ForwardScanStarves(tier, s, end, 0, p, fuel);
    }
  }

  /**
   * When the scan from index 0 always comes, d units of fuel later, to a '('
   * without partner, it spins: the '(' sends it back to index 0.
   */
  lemma {:induction false} ForwardScanCycles(tier: Tier, s: string, end: int, p: int, d: nat, fuel: nat)
    requires 0 <= p < end
    requires CharIs(s, p, '(') && MatchingClose(s, p, end).None? && !IsTierOp(tier, s, p)
    requires forall f: nat :: f >= d ==> ForwardScan(tier, s, end, 0, f) == ForwardScan(tier, s, end, p, f - d)
    requires forall f: nat :: f < d ==> ForwardScan(tier, s, end, 0, f) == Loops
    ensures ForwardScan(tier, s, end, p, fuel) == Loops
    ensures ForwardScan(tier, s, end, 0, fuel) == Loops
    decreases fuel
  {
    if fuel > 0 {
      ForwardScanRestartsAtZero(tier, s, end, p, fuel);
      if fuel - 1 >= d {
        ForwardScanCycles(tier, s, end, p, d, fuel - 1 - d);
      }
    }
    if fuel >= d && d > 0 {
      ForwardScanCycles(tier, s, end, p, d, fuel - d);
    }
  }

  // ---------------------------------------------------------------------
  // Whole windows

  /** A trimmed window not wrapped in '(' … ')' goes straight to the passes. */
  lemma ParseWindowUnwrapped(s: string, start: int, end: int, fuel: nat)
    requires 0 <= start < end <= |s|
    requires !CharIs(s, start, ' ') && !CharIs(s, end - 1, ' ')
    requires !(CharIs(s, start, '(') && CharIs(s, end - 1, ')'))
    ensures ParseWindow(s, start, end, fuel) == ParseStripped(s, start, end, fuel)
  {
    assert TrimmedEnd(s, start, end) == end;
    assert TrimmedStart(s, start, end) == start;
  }

  /**
   * A trimmed window wrapped in '(' … ')' parses as its inside, when the
   * inside is trimmed and not wrapped again.
   */
  lemma ParseStripsOnePair(s: string, start: int, end: int, fuel: nat)
    requires 0 <= start && start + 2 < end <= |s|
    requires CharIs(s, start, '(') && CharIs(s, end - 1, ')')
    requires !CharIs(s, start + 1, ' ') && !CharIs(s, end - 2, ' ')
    requires !(CharIs(s, start + 1, '(') && CharIs(s, end - 2, ')'))
    ensures ParseWindow(s, start, end, fuel) == ParseWindow(s, start + 1, end - 1, fuel)
  {
    assert TrimmedEnd(s, start, end) == end;
    assert TrimmedStart(s, start, end) == start;
    assert TrimmedEnd(s, start + 1, end - 1) == end - 1;
    assert TrimmedStart(s, start + 1, end - 1) == start + 1;
    assert StripOnce(s, start, end) == (start + 1, end - 1);
    assert ParseWindow(s, start, end, fuel) == ParseStripped(s, start + 1, end - 1, fuel);
    ParseWindowUnwrapped(s, start + 1, end - 1, fuel);
  }

  /** A window the additive pass splits at i is the node over the two sides. */
  lemma ParseStrippedAtAdditiveSplit(s: string, a: int, z: int, i: int, fuel: nat)
    requires 0 <= a < z <= |s|
    requires ForwardScan(Additive, s, z, a, fuel) == Split(i)
    ensures IsOperator(s[i])
    ensures ParseStripped(s, a, z, fuel) == Join(s[i], ParseWindow(s, a, i, fuel), ParseWindow(s, i + 1, z, fuel))
  {
    assert ParseStripped(s, a, z, fuel) == SplitAt(s, a, i, z, fuel);
  }

  /** A window the additive pass lets through and the multiplicative pass splits at i. */
  lemma ParseStrippedAtMultiplicativeSplit(s: string, a: int, z: int, i: int, fuel: nat)
    requires 0 <= a < z <= |s|
    requires ForwardScan(Additive, s, z, a, fuel) == NoSplit
    requires ForwardScan(Multiplicative, s, z, a, fuel) == Split(i)
    ensures IsOperator(s[i])
    ensures ParseStripped(s, a, z, fuel) == Join(s[i], ParseWindow(s, a, i, fuel), ParseWindow(s, i + 1, z, fuel))
  {
    assert ParseStripped(s, a, z, fuel) == SplitAt(s, a, i, z, fuel);
  }

  /** No '(' and no operator of the pass in [from, to). */
  predicate Plain(tier: Tier, s: string, from: int, to: int) {
    forall j :: from <= j < to ==> !IsTierOp(tier, s, j) && !CharIs(s, j, '(')
  }

  /**
   * The scan from i reaches k over the top level of the window: every index it
   * stops at before k holds no operator of the pass, and every '(' it stops
   * at has a partner before `end`, after which the scan goes on. The stops
   * are exactly the characters outside every partnered group.
   */
  predicate TopLevelFree(tier: Tier, s: string, end: int, i: int, k: int)
    requires 0 <= i
    decreases k - i
  {
    i == k ||
    (i < k && !IsTierOp(tier, s, i) &&
     if CharIs(s, i, '(') then
       MatchingClose(s, i, end).Some? && TopLevelFree(tier, s, end, MatchingClose(s, i, end).value + 1, k)
     else TopLevelFree(tier, s, end, i + 1, k))
  }

  /** A stretch without '(' and operators of the pass is free at the top level. */
  lemma {:induction false} PlainIsTopLevelFree(tier: Tier, s: string, end: int, i: int, k: int)
    requires 0 <= i <= k && Plain(tier, s, i, k)
    ensures TopLevelFree(tier, s, end, i, k)
    decreases k - i
  {
    if i < k {
      PlainIsTopLevelFree(tier, s, end, i + 1, k);
    }
  }

  /** With fuel for one step per character, the scan stops at the first top-level operator. */
  lemma {:induction false} ForwardScanSplitsAtTopLevel(tier: Tier, s: string, end: int, i: int, k: int, fuel: nat)
    requires 0 <= i && k < end
    requires TopLevelFree(tier, s, end, i, k) && IsTierOp(tier, s, k)
    requires fuel > k - i
    ensures ForwardScan(tier, s, end, i, fuel) == Split(k)
    decreases k - i
  {
    if i < k {
      if CharIs(s, i, '(') {
        var c := MatchingClose(s, i, end).value;
        assert CloseIndex(s, i, end) == c;
        ForwardScanSplitsAtTopLevel(tier, s, end, c + 1, k, fuel - 1);
      } else {
        ForwardScanSplitsAtTopLevel(tier, s, end, i + 1, k, fuel - 1);
      }
    }
  }

  /** A window free of the pass's operators at the top level lets the pass through. */
  lemma {:induction false} ForwardScanPassesTopLevel(tier: Tier, s: string, end: int, i: int, fuel: nat)
    requires 0 <= i <= end
    requires TopLevelFree(tier, s, end, i, end)
    requires fuel >= end - i
    ensures ForwardScan(tier, s, end, i, fuel) == NoSplit
    decreases end - i
  {
    if i < end {
      if CharIs(s, i, '(') {
        var c := MatchingClose(s, i, end).value;
        assert CloseIndex(s, i, end) == c;
        ForwardScanPassesTopLevel(tier, s, end, c + 1, fuel - 1);
      } else {
        ForwardScanPassesTopLevel(tier, s, end, i + 1, fuel - 1);
      }
    }
  }

  /**
   * A trimmed, unwrapped window splits at its first '+' or '-' outside every
   * group: the first additive operator at the top level, not the last, is the root.
   */
  lemma ParseSplitsAtLeftmostAdditive(s: string, start: int, end: int, k: int, fuel: nat)
    requires 0 <= start <= k < end <= |s|
    requires !CharIs(s, start, ' ') && !CharIs(s, end - 1, ' ')
    requires !(CharIs(s, start, '(') && CharIs(s, end - 1, ')'))
    requires TopLevelFree(Additive, s, end, start, k) && IsTierOp(Additive, s, k)
    requires fuel > k - start
    ensures ParseWindow(s, start, end, fuel) ==
            Join(s[k], ParseWindow(s, start, k, fuel), ParseWindow(s, k + 1, end, fuel))
  {
    ForwardScanSplitsAtTopLevel(Additive, s, end, start, k, fuel);
    ParseStrippedAtAdditiveSplit(s, start, end, k, fuel);
    ParseWindowUnwrapped(s, start, end, fuel);
  }

  /**
   * A trimmed, unwrapped window without '+' and '-' at the top level splits at
   * its first '*' or '/' outside every group.
   */
  lemma ParseSplitsAtLeftmostMultiplicative(s: string, start: int, end: int, k: int, fuel: nat)
    requires 0 <= start <= k < end <= |s|
    requires !CharIs(s, start, ' ') && !CharIs(s, end - 1, ' ')
    requires !(CharIs(s, start, '(') && CharIs(s, end - 1, ')'))
    requires TopLevelFree(Additive, s, end, start, end)
    requires TopLevelFree(Multiplicative, s, end, start, k) && IsTierOp(Multiplicative, s, k)
    requires fuel >= end - start
    ensures ParseWindow(s, start, end, fuel) ==
            Join(s[k], ParseWindow(s, start, k, fuel), ParseWindow(s, k + 1, end, fuel))
  {
    ForwardScanPassesTopLevel(Additive, s, end, start, fuel);
    ForwardScanSplitsAtTopLevel(Multiplicative, s, end, start, k, fuel);
    ParseStrippedAtMultiplicativeSplit(s, start, end, k, fuel);
    ParseWindowUnwrapped(s, start, end, fuel);
  }

  /** A window without operators and '(' is read by parseNumericValue. */
  lemma ParseLiteralWindow(s: string, start: int, end: int, fuel: nat)
    requires 0 <= start <= end <= |s|
    requires Plain(Additive, s, start, end) && Plain(Multiplicative, s, start, end)
    requires fuel >= end - start
    ensures ParseWindow(s, start, end, fuel) ==
            match ParseNumericValue(s, start, end)
            case Ok(v) => Parsed(Number(v))
            case Err(k) => Failed(k)
  {
    var e := TrimmedEnd(s, start, end);
    var b := TrimmedStart(s, start, e);
    if b < e {
      assert TrimmedEnd(s, b, e) == e;
      assert TrimmedStart(s, b, e) == b;
      ForwardScanWalks(Additive, s, e, b, e, fuel);
      ForwardScanWalks(Multiplicative, s, e, b, e, fuel);
    }
  }

  /** A non-empty run of digits parses to the number it spells. */
  lemma ParseDigits(s: string, start: int, end: int, fuel: nat)
    requires 0 <= start < end <= |s|
    requires DigitsOnly(s, start, end)
    requires fuel >= end - start
    ensures AllDigits(s[start..end])
    ensures ParseWindow(s, start, end, fuel) == Parsed(Number(DecimalValue(s[start..end])))
  {
    forall j | start <= j < end
      ensures !IsTierOp(Additive, s, j) && !IsTierOp(Multiplicative, s, j) && !CharIs(s, j, '(')
    {
      assert DigitAt(s, j);
    }
    forall k | 0 <= k < end - start
      ensures IsDigit(s[start..end][k])
    {
      assert DigitAt(s, start + k);
    }
    assert DigitAt(s, start) && DigitAt(s, end - 1);
    assert TrimmedEnd(s, start, end) == end;
    assert TrimmedStart(s, start, end) == start;
    assert TrimmedText(s, start, end) == s[start..end];
    ParseLiteralWindow(s, start, end, fuel);
  }

  /**
   * A window wrapped twice, "((" … "))" with the inner pair matched, loses only
   * the outer pair; the passes skip the inner group whole and the literal
   * reader refuses the text that still starts with '('.
   */
  lemma ParseDoubleWrappedFails(s: string, start: int, end: int, fuel: nat)
    requires 0 <= start && start + 4 <= end <= |s|
    requires CharIs(s, start, '(') && CharIs(s, start + 1, '(')
    requires CharIs(s, end - 1, ')') && MatchingClose(s, start + 1, end - 1) == Some(end - 2)
    requires fuel > 0
    ensures ParseWindow(s, start, end, fuel) == Failed(InvalidLiteral)
  {
    assert TrimmedEnd(s, start, end) == end;
    assert TrimmedStart(s, start, end) == start;
    assert CharIs(s, end - 2, ')');
    assert TrimmedEnd(s, start + 1, end - 1) == end - 1;
    assert TrimmedStart(s, start + 1, end - 1) == start + 1;
    assert StripOnce(s, start, end) == (start + 1, end - 1);
    assert ForwardScan(Additive, s, end - 1, start + 1, fuel) == NoSplit;
    assert ForwardScan(Multiplicative, s, end - 1, start + 1, fuel) == NoSplit;
    var text := TrimmedText(s, start + 1, end - 1);
    assert text[0] == '(';
  }

  /**
   * A trimmed window that opens with a '(' without partner and does not end in
   * ')' makes parseExpressionRecursive spin, whatever the fuel, as long as
   * nothing before the window (from index 0 on) stops the restarted scan.
   */
  lemma ParseDivergesAtUnmatched(s: string, start: int, end: int, fuel: nat)
    requires 0 <= start < end <= |s|
    requires !CharIs(s, end - 1, ' ') && !CharIs(s, end - 1, ')')
    requires CharIs(s, start, '(') && MatchingClose(s, start, end).None?
    requires Plain(Additive, s, 0, start)
    ensures ParseWindow(s, start, end, fuel) == Diverged
  {
    ParseWindowUnwrapped(s, start, end, fuel);
    ForwardScanLoopsAtUnmatched(Additive, s, end, start, fuel);
  }

  // ---------------------------------------------------------------------
  // Fuel: an outcome reached with some fuel stays the same with more

  /** A scan that ends with some fuel ends the same way with more. */
  lemma {:induction false} ForwardScanMonotone(tier: Tier, s: string, end: int, i: int, fuel: nat, more: nat)
    requires 0 <= i && fuel <= more
    requires ForwardScan(tier, s, end, i, fuel) != Loops
    ensures ForwardScan(tier, s, end, i, more) == ForwardScan(tier, s, end, i, fuel)
    decreases fuel
  {
    if i < end && !IsTierOp(tier, s, i) {
      if CharIs(s, i, '(') {
        ForwardScanMonotone(tier, s, end, CloseIndex(s, i, end) + 1, fuel - 1, more - 1);
      } else {
        ForwardScanMonotone(tier, s, end, i + 1, fuel - 1, more - 1);
      }
    }
  }

  /** A window that parses or fails with some fuel does the same with more. */
  lemma {:induction false} ParseWindowMonotone(s: string, startIndex: int, endIndex: int, fuel: nat, more: nat)
    requires 0 <= startIndex <= |s| && 0 <= endIndex <= |s| && fuel <= more
    requires ParseWindow(s, startIndex, endIndex, fuel) != Diverged
    ensures ParseWindow(s, startIndex, endIndex, more) == ParseWindow(s, startIndex, endIndex, fuel)
    decreases if endIndex > startIndex then endIndex - startIndex else 0, 2
  {
    var e := TrimmedEnd(s, startIndex, endIndex);
    var b := TrimmedStart(s, startIndex, e);
    var (a, z) := StripOnce(s, b, e);
    if a < z {
      ParseStrippedMonotone(s, a, z, fuel, more);
    }
  }

  lemma {:induction false} ParseStrippedMonotone(s: string, a: int, z: int, fuel: nat, more: nat)
    requires 0 <= a < z <= |s| && fuel <= more
    requires ParseStripped(s, a, z, fuel) != Diverged
    ensures ParseStripped(s, a, z, more) == ParseStripped(s, a, z, fuel)
    decreases z - a, 1
  {
    ForwardScanMonotone(Additive, s, z, a, fuel, more);
    match ForwardScan(Additive, s, z, a, fuel)
    case Split(i) => SplitAtMonotone(s, a, i, z, fuel, more);
    case NoSplit =>
      ForwardScanMonotone(Multiplicative, s, z, a, fuel, more);
      match ForwardScan(Multiplicative, s, z, a, fuel)
      case Split(i) => SplitAtMonotone(s, a, i, z, fuel, more);
      case NoSplit =>
  }

  lemma {:induction false} SplitAtMonotone(s: string, a: int, i: int, z: int, fuel: nat, more: nat)
    requires 0 <= a < z <= |s| && 0 <= i < z && IsOperator(s[i]) && fuel <= more
    requires SplitAt(s, a, i, z, fuel) != Diverged
    ensures SplitAt(s, a, i, z, more) == SplitAt(s, a, i, z, fuel)
    decreases z - a, 0
  {
    ParseWindowMonotone(s, a, i, fuel, more);
    if ParseWindow(s, a, i, fuel).Parsed? {
      ParseWindowMonotone(s, i + 1, z, fuel, more);
    }
  }

  /** parseExpression with more fuel: a tree or an error, once reached, stays. */
  lemma ParseMonotone(s: string, fuel: nat, more: nat)
    requires fuel <= more && Parse(s, fuel) != Diverged
    ensures Parse(s, more) == Parse(s, fuel)
  {
    ParseWindowMonotone(s, 0, |s|, fuel, more);
  }

  // ---------------------------------------------------------------------
  // The source's loops, proved against the functions above

  /** findCloseParenthesis: the partner's index, or -1. */
  method FindCloseParenthesis(s: string, openParenIndex: int, endIndex: int) returns (r: int)
    ensures r == CloseIndex(s, openParenIndex, endIndex)
  {
    var nestedDepth := 0;
    var i := openParenIndex;
    while i < endIndex
      invariant openParenIndex <= i
      invariant nestedDepth == Depth(s, openParenIndex, i)
      invariant MatchFrom(s, openParenIndex, endIndex, i, nestedDepth) == MatchingClose(s, openParenIndex, endIndex)
      decreases endIndex - i
    {
      if CharIs(s, i, '(') {
        nestedDepth := nestedDepth + 1;
      } else if CharIs(s, i, ')') {
        nestedDepth := nestedDepth - 1;
        if nestedDepth == 0 {
          return i;
        }
      }
      i := i + 1;
    }
    return -1;
  }

  /** One of the two scan loops of parseExpressionRecursive, cut off after `fuel` iterations. */
  method OperatorPass(tier: Tier, s: string, startIndex: int, endIndex: int, fuel: nat) returns (r: Scan)
    requires 0 <= startIndex
    ensures r == ForwardScan(tier, s, endIndex, startIndex, fuel)
  {
    var i := startIndex;
    var steps := fuel;
    while i < endIndex
      invariant 0 <= i
      invariant ForwardScan(tier, s, endIndex, i, steps) == ForwardScan(tier, s, endIndex, startIndex, fuel)
      decreases steps
    {
      if steps == 0 {
        return Loops;
      }
      if IsTierOp(tier, s, i) {
        return Split(i);
      }
      if CharIs(s, i, '(') {
        i := FindCloseParenthesis(s, i, endIndex);
      }
      i := i + 1;
      steps := steps - 1;
    }
    return NoSplit;
  }

  /**
   * parseExpressionRecursive: trim, strip one pair, and hand a non-empty
   * window to the passes.
   */
  method ParseExpressionRecursive(s: string, startIndex: int, endIndex: int, fuel: nat) returns (r: Outcome)
    requires 0 <= startIndex <= |s| && 0 <= endIndex <= |s|
    decreases if endIndex > startIndex then endIndex - startIndex else 0, 1
    ensures r == ParseWindow(s, startIndex, endIndex, fuel)
  {
    var end := TrimTrailingWhitespace(s, startIndex, endIndex);
    var start := TrimLeadingWhitespace(s, startIndex, end);
    ghost var stripped := StripOnce(s, start, end);
    if CharIs(s, start, '(') && CharIs(s, end - 1, ')') {
      start, end := start + 1, end - 1;
      end := TrimTrailingWhitespace(s, start, end);
      start := TrimLeadingWhitespace(s, start, end);
    }
    assert (start, end) == stripped;
    if start >= end {
      return Failed(EmptyExpression);
    }
    r := ParseOperators(s, start, end, fuel);
  }

  /**
   * The rest of parseExpressionRecursive: split at what the first pass finds,
   * else at what the second pass finds, else read a literal. The left term is
   * parsed before the right one.
   */
  method ParseOperators(s: string, start: int, end: int, fuel: nat) returns (r: Outcome)
    requires 0 <= start < end <= |s|
    decreases end - start, 0
    ensures r == ParseStripped(s, start, end, fuel)
  {
    var scan := OperatorPass(Additive, s, start, end, fuel);
    if scan.NoSplit? {
      scan := OperatorPass(Multiplicative, s, start, end, fuel);
      if scan.NoSplit? {
        var numericTerm := ReadNumericValue(s, start, end);
        match numericTerm
        case Ok(v) => return Parsed(Number(v));
        case Err(k) => return Failed(k);
      }
    }
    match scan
    case Loops => return Diverged;
    case Split(i) =>
      assert ParseStripped(s, start, end, fuel) == SplitAt(s, start, i, end, fuel);
      var term1 := ParseExpressionRecursive(s, start, i, fuel);
      if !term1.Parsed? {
        return term1;
      }
      var term2 := ParseExpressionRecursive(s, i + 1, end, fuel);
      if !term2.Parsed? {
        return term2;
      }
      return Parsed(MakeNode(s[i], term1.expr, term2.expr));
  }

  /** parseExpression. */
  method ParseExpression(s: string, fuel: nat) returns (r: Outcome)
    ensures r == Parse(s, fuel)
  {
    r := ParseExpressionRecursive(s, 0, |s|, fuel);
  }
}
