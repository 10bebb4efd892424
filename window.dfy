/**
 * Helpers that both calculator parsers share, character for character:
 * reading a character of the input, the parenthesis depth count, trimming
 * spaces off a half-open window [start, end) of the input, and reading a
 * numeric literal out of a window.
 */
module Window {

  datatype Option<T> = None | Some(value: T)

  /** The kinds of parse failure (the source throws one error class for all of them). */
  datatype ErrorKind = UnmatchedParenthesis | EmptyExpression | InvalidLiteral

  datatype Result<T> = Ok(value: T) | Err(kind: ErrorKind)

  /**
   * `s.charAt(i) == c`: charAt answers the empty string outside [0, |s|),
   * and the empty string equals no character.
   */
  predicate CharIs(s: string, i: int, c: char) {
    0 <= i < |s| && s[i] == c
  }

  /** s has the characters of t, position by position. */
  predicate Spells(s: string, t: string) {
    |s| == |t| && forall i :: 0 <= i < |t| ==> s[i] == t[i]
  }

  predicate IsDigit(c: char) {
    '0' <= c <= '9'
  }

  predicate DigitAt(s: string, i: int) {
    0 <= i < |s| && IsDigit(s[i])
  }

  /** Every position of [from, to) holds a space. */
  predicate AllSpaces(s: string, from: int, to: int) {
    forall k :: from <= k < to ==> CharIs(s, k, ' ')
  }

  /** How a character moves the nesting depth: +1 for '(', -1 for ')'. */
  function Weight(s: string, i: int): int {
    if CharIs(s, i, '(') then 1 else if CharIs(s, i, ')') then -1 else 0
  }

  /** Number of '(' minus number of ')' in [from, to). */
  function Depth(s: string, from: int, to: int): int
    decreases to - from
  {
    if to <= from then 0 else Depth(s, from, to - 1) + Weight(s, to - 1)
  }

  /**
   * Position k holds a ')' at which the running depth counted from `open`
   * (over [open, k], the ')' included) comes back to zero.
   */
  predicate ClosesAt(s: string, open: int, k: int) {
    CharIs(s, k, ')') && Depth(s, open, k + 1) == 0
  }

  /** The depth-counting loop of findCloseParenthesis, from position i on. */
  function MatchFrom(s: string, open: int, end: int, i: int, depth: int): (r: Option<int>)
    requires open <= i && depth == Depth(s, open, i)
    decreases end - i
    ensures r.Some? ==> i <= r.value < end && ClosesAt(s, open, r.value)
    ensures r.Some? ==> forall k :: i <= k < r.value ==> !ClosesAt(s, open, k)
    ensures r.None? ==> forall k :: i <= k < end ==> !ClosesAt(s, open, k)
  {
    if i >= end then None
    else
      var d := depth + Weight(s, i);
      if CharIs(s, i, ')') && d == 0 then Some(i)
      else MatchFrom(s, open, end, i + 1, d)
  }

  /**
   * The partner of the parenthesis at `open` within [open, end): the first
   * ')' at which the depth counted from `open` returns to zero, if any.
   */
  function MatchingClose(s: string, open: int, end: int): (r: Option<int>)
    ensures r.Some? ==> open <= r.value < end && ClosesAt(s, open, r.value)
    ensures r.Some? ==> forall k :: open <= k < r.value ==> !ClosesAt(s, open, k)
    ensures r.None? ==> forall k :: open <= k < end ==> !ClosesAt(s, open, k)
  {
    MatchFrom(s, open, end, open, 0)
  }

  /** Between a '(' and the first ')' after it, with no parenthesis in between, the depth is 1. */
  lemma {:induction false} DepthInFlatGroup(s: string, open: int, j: int)
    requires CharIs(s, open, '(') && open < j
    requires forall k :: open < k < j ==> !CharIs(s, k, '(') && !CharIs(s, k, ')')
    ensures Depth(s, open, j) == 1
    decreases j - open
  {
    if j > open + 1 {
      DepthInFlatGroup(s, open, j - 1);
    }
  }

  /** A group with no parenthesis inside is closed by the first ')' after its '('. */
  lemma MatchingCloseOfFlatGroup(s: string, open: int, c: int, end: int)
    requires CharIs(s, open, '(') && CharIs(s, c, ')') && open < c < end
    requires forall k :: open < k < c ==> !CharIs(s, k, '(') && !CharIs(s, k, ')')
    ensures MatchingClose(s, open, end) == Some(c)
  {
    DepthInFlatGroup(s, open, c);
    assert ClosesAt(s, open, c);
  }

  /** A '(' with no ')' after it in the window has no partner there. */
  lemma MatchingCloseOfUnclosed(s: string, open: int, end: int)
    requires CharIs(s, open, '(')
    requires forall k :: open < k < end ==> !CharIs(s, k, ')')
    ensures MatchingClose(s, open, end).None?
  {
  }

  /** Depth counted from `open` is the first character's weight plus the depth counted from the next one. */
  lemma {:induction false} DepthAfterFirst(s: string, open: int, k: int)
    requires open < k
    ensures Depth(s, open, k) == Weight(s, open) + Depth(s, open + 1, k)
    decreases k - open
  {
    if k > open + 1 {
      DepthAfterFirst(s, open, k - 1);
    }
  }

  /** Inside a group, before any ')' that closes it, the depth counted from its '(' stays positive. */
  lemma {:induction false} DepthInsideGroup(s: string, open: int, k: int)
    requires CharIs(s, open, '(') && open <= k
    requires forall j :: open <= j <= k ==> !ClosesAt(s, open, j)
    ensures Depth(s, open, k + 1) >= 1
    decreases k - open
  {
    if k > open {
      DepthInsideGroup(s, open, k - 1);
      assert !ClosesAt(s, open, k);
    }
  }

  /**
   * A '(' right before an inner group whose partner is at c - 1, followed by
   * a ')' at c, is closed at c.
   */
  lemma MatchingCloseOfWrapped(s: string, open: int, c: int, end: int)
    requires CharIs(s, open, '(') && CharIs(s, c, ')') && c < end
    requires CharIs(s, open + 1, '(') && MatchingClose(s, open + 1, end) == Some(c - 1)
    ensures MatchingClose(s, open, end) == Some(c)
  {
    forall k | open <= k < c
      ensures !ClosesAt(s, open, k)
    {
      if k > open {
        DepthAfterFirst(s, open, k + 1);
        if k < c - 1 {
          DepthInsideGroup(s, open + 1, k);
        }
      }
    }
    DepthAfterFirst(s, open, c);
    assert ClosesAt(s, open, c);
  }

  /** The index trimTrailingWhitespace returns. */
  function TrimmedEnd(s: string, start: int, end: int): (r: int)
    decreases end - start
    ensures end <= start ==> r == end
    ensures start < end ==> start <= r <= end
    ensures AllSpaces(s, r, end)
    ensures r > start ==> !CharIs(s, r - 1, ' ')
  {
    if end > start && CharIs(s, end - 1, ' ') then TrimmedEnd(s, start, end - 1) else end
  }

  /** The index trimLeadingWhitespace returns. */
  function TrimmedStart(s: string, start: int, end: int): (r: int)
    decreases end - start
    ensures start >= end ==> r == start
    ensures start < end ==> start <= r <= end
    ensures AllSpaces(s, start, r)
    ensures r < end ==> !CharIs(s, r, ' ')
  {
    if start < end && CharIs(s, start, ' ') then TrimmedStart(s, start + 1, end) else start
  }

  lemma TrimmedEndIdempotent(s: string, start: int, end: int)
    ensures TrimmedEnd(s, start, TrimmedEnd(s, start, end)) == TrimmedEnd(s, start, end)
  {
  }

  lemma TrimmedStartIdempotent(s: string, start: int, end: int)
    ensures TrimmedStart(s, TrimmedStart(s, start, end), end) == TrimmedStart(s, start, end)
  {
  }

  /** Trimming a window that ends in spaces stops right after its last non-space character. */
  lemma {:induction false} TrimmedEndSkipsSpaces(s: string, start: int, e: int, end: int)
    requires start < e <= end
    requires AllSpaces(s, e, end) && !CharIs(s, e - 1, ' ')
    ensures TrimmedEnd(s, start, end) == e
    decreases end - e
  {
    if end > e {
      assert CharIs(s, end - 1, ' ');
      TrimmedEndSkipsSpaces(s, start, e, end - 1);
    }
  }

  /** Trimming a window that starts with spaces stops at its first non-space character. */
  lemma {:induction false} TrimmedStartSkipsSpaces(s: string, start: int, b: int, end: int)
    requires start <= b < end
    requires AllSpaces(s, start, b) && !CharIs(s, b, ' ')
    ensures TrimmedStart(s, start, end) == b
    decreases b - start
  {
    if start < b {
      assert CharIs(s, start, ' ');
      TrimmedStartSkipsSpaces(s, start + 1, b, end);
    }
  }

  method TrimTrailingWhitespace(s: string, startIndex: int, endIndex: int) returns (r: int)
    ensures r == TrimmedEnd(s, startIndex, endIndex)
  {
    r := endIndex;
    while r > startIndex && CharIs(s, r - 1, ' ')
      invariant TrimmedEnd(s, startIndex, r) == TrimmedEnd(s, startIndex, endIndex)
      decreases r - startIndex
    {
      r := r - 1;
    }
  }

  method TrimLeadingWhitespace(s: string, startIndex: int, endIndex: int) returns (r: int)
    ensures r == TrimmedStart(s, startIndex, endIndex)
  {
    r := startIndex;
    while r < endIndex && CharIs(s, r, ' ')
      invariant TrimmedStart(s, r, endIndex) == TrimmedStart(s, startIndex, endIndex)
      decreases endIndex - r
    {
      r := r + 1;
    }
  }

  /** All of [from, to) are decimal digits. */
  predicate DigitsOnly(s: string, from: int, to: int) {
    forall j :: from <= j < to ==> DigitAt(s, j)
  }

  predicate AllDigits(t: string) {
    forall k :: 0 <= k < |t| ==> IsDigit(t[k])
  }

  /**
   * The texts over digits, space and `+-*\/()` that JavaScript's Number()
   * accepts once the surrounding spaces are gone: an optional sign and a
   * non-empty run of decimal digits.
   */
  predicate IsLiteral(t: string)
    ensures IsLiteral(t) ==> |t| > 0 && IsDigit(t[|t| - 1])
    ensures IsLiteral(t) ==> forall k :: 1 <= k < |t| ==> IsDigit(t[k])
  {
    (|t| > 0 && AllDigits(t)) || (|t| > 1 && (t[0] == '+' || t[0] == '-') && AllDigits(t[1..]))
  }

  /** The decimal value of a run of digits. */
  function DecimalValue(t: string): nat
    requires AllDigits(t)
  {
    if t == [] then 0 else DecimalValue(t[..|t| - 1]) * 10 + (t[|t| - 1] - '0') as int
  }

  /** What parseInt makes of a literal. */
  function LiteralValue(t: string): (r: int)
    requires IsLiteral(t)
    ensures t[0] != '-' ==> r >= 0
    ensures t[0] == '+' ==> r == LiteralValue(t[1..])
    ensures t[0] == '-' ==> r == -LiteralValue(t[1..])
  {
    if AllDigits(t) then DecimalValue(t)
    else if t[0] == '-' then -(DecimalValue(t[1..]) as int)
    else DecimalValue(t[1..])
  }

  /** The text of a window without its leading and trailing spaces. */
  function TrimmedText(s: string, start: int, end: int): (t: string)
    requires 0 <= start && end <= |s|
    ensures t == [] || (t[0] != ' ' && t[|t| - 1] != ' ')
    ensures start <= end ==> exists b :: start <= b <= end - |t| && AllSpaces(s, start, b) &&
                                         s[b..b + |t|] == t && AllSpaces(s, b + |t|, end)
  {
    var e := TrimmedEnd(s, start, end);
    var b := TrimmedStart(s, start, e);
    if b < e then s[b..e] else []
  }

  /** parseNumericValue: trim the window, refuse it when empty or not a literal, else its value. */
  function ParseNumericValue(s: string, startIndex: int, endIndex: int): (r: Result<int>)
    requires 0 <= startIndex && endIndex <= |s|
    ensures r == Err(EmptyExpression) <==> AllSpaces(s, startIndex, endIndex)
    ensures r.Ok? <==> IsLiteral(TrimmedText(s, startIndex, endIndex))
    ensures r.Ok? ==> r.value == LiteralValue(TrimmedText(s, startIndex, endIndex))
    ensures r.Err? ==> r.kind != UnmatchedParenthesis
  {
    var e := TrimmedEnd(s, startIndex, endIndex);
    var b := TrimmedStart(s, startIndex, e);
    if b >= e then Err(EmptyExpression)
    else
      var text := s[b..e];
      if IsLiteral(text) then Ok(LiteralValue(text)) else Err(InvalidLiteral)
  }

  /** parseNumericValue as the source writes it, over the two trim loops. */
  method ReadNumericValue(s: string, startIndex: int, endIndex: int) returns (r: Result<int>)
    requires 0 <= startIndex && endIndex <= |s|
    ensures r == ParseNumericValue(s, startIndex, endIndex)
  {
    var end := TrimTrailingWhitespace(s, startIndex, endIndex);
    var start := TrimLeadingWhitespace(s, startIndex, end);
    if start >= end {
      return Err(EmptyExpression);
    }
    var numericString := s[start..end];
    if !IsLiteral(numericString) {
      return Err(InvalidLiteral);
    }
    return Ok(LiteralValue(numericString));
  }

  /** Where the digits of "x op y" sit, for two runs of digits x and y. */
  lemma BinaryLayout(x: string, y: string, op: char)
    requires |x| > 0 && |y| > 0 && AllDigits(x) && AllDigits(y)
    ensures DigitsOnly(x + [op] + y, 0, |x|) && DigitsOnly(x + [op] + y, |x| + 1, |x| + 1 + |y|)
    ensures (x + [op] + y)[0..|x|] == x && (x + [op] + y)[|x| + 1..] == y
  {
    var s := x + [op] + y;
    forall j | 0 <= j < |x|
      ensures DigitAt(s, j)
    {
      assert s[j] == x[j];
    }
    forall j | |x| + 1 <= j < |s|
      ensures DigitAt(s, j)
    {
      assert s[j] == y[j - |x| - 1];
    }
    assert s[0..|x|] == x;
    assert s[|x| + 1..] == y;
  }
}
