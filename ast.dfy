/**
 * The expression tree both parsers build: NumberExpression and the four
 * binary node classes, each with evaluate() and toString().
 */
module Ast {
  import opened Window

  datatype Expr =
    | Number(value: int)
    | Add(term1: Expr, term2: Expr)
    | Subtract(term1: Expr, term2: Expr)
    | Multiply(term1: Expr, term2: Expr)
    | Divide(term1: Expr, term2: Expr)

  predicate IsOperator(c: char) {
    c == '+' || c == '-' || c == '*' || c == '/'
  }

  /** The node the parser builds for an operator character. */
  function MakeNode(op: char, term1: Expr, term2: Expr): (e: Expr)
    requires IsOperator(op)
    ensures !e.Number? && e.term1 == term1 && e.term2 == term2
    ensures e.Add? <==> op == '+'
    ensures e.Subtract? <==> op == '-'
    ensures e.Multiply? <==> op == '*'
    ensures e.Divide? <==> op == '/'
  {
    match op
    case '+' => Add(term1, term2)
    case '-' => Subtract(term1, term2)
    case '*' => Multiply(term1, term2)
    case '/' => Divide(term1, term2)
  }

  /**
   * evaluate(): the value of the tree as an exact rational number, or None
   * when some division has a zero divisor (where JavaScript would produce
   * Infinity or NaN).
   */
  function Evaluate(e: Expr): (r: Option<real>)
    ensures r.None? ==> HasDivision(e)
  {
    match e
    case Number(v) => Some(v as real)
    case Add(a, b) => Sum(Evaluate(a), Evaluate(b))
    case Subtract(a, b) => Difference(Evaluate(a), Evaluate(b))
    case Multiply(a, b) => Product(Evaluate(a), Evaluate(b))
    case Divide(a, b) => Quotient(Evaluate(a), Evaluate(b))
  }

  /** Some node of the tree is a Divide node. */
  predicate HasDivision(e: Expr) {
    match e
    case Number(_) => false
    case Divide(_, _) => true
    case Add(a, b) => HasDivision(a) || HasDivision(b)
    case Subtract(a, b) => HasDivision(a) || HasDivision(b)
    case Multiply(a, b) => HasDivision(a) || HasDivision(b)
  }

  function Sum(x: Option<real>, y: Option<real>): Option<real> {
    if x.Some? && y.Some? then Some(x.value + y.value) else None
  }

  function Difference(x: Option<real>, y: Option<real>): Option<real> {
    if x.Some? && y.Some? then Some(x.value - y.value) else None
  }

  function Product(x: Option<real>, y: Option<real>): Option<real> {
    if x.Some? && y.Some? then Some(x.value * y.value) else None
  }

  function Quotient(x: Option<real>, y: Option<real>): Option<real> {
    if x.Some? && y.Some? && y.value != 0.0 then Some(x.value / y.value) else None
  }

  function DigitChar(d: nat): (c: char)
    requires d < 10
    ensures IsDigit(c) && (c - '0') as int == d
  {
    ('0' as int + d) as char
  }

  /** The decimal digits of n, most significant first. */
  function NatToString(n: nat): (r: string)
    decreases n
    ensures |r| > 0 && AllDigits(r)
  {
    if n < 10 then [DigitChar(n)] else NatToString(n / 10) + [DigitChar(n % 10)]
  }

  /** Number.prototype.toString on an integer value. */
  function IntToString(v: int): (r: string)
    ensures |r| > 0 && (r[0] == '-' <==> v < 0)
    ensures v >= 0 ==> AllDigits(r)
  {
    if v < 0 then "-" + NatToString(-v) else NatToString(v)
  }

  /** The template of the binary nodes' toString(): "(left) op (right)". */
  function Bracketed(left: string, op: char, right: string): string {
    "(" + left + ") " + [op] + " (" + right + ")"
  }

  /** toString(): a literal prints as its number, a binary node as "(left) op (right)". */
  function ToString(e: Expr): (r: string)
    ensures |r| > 0
    ensures !e.Number? ==> r[0] == '(' && r[|r| - 1] == ')'
  {
    match e
    case Number(v) => IntToString(v)
    case Add(a, b) => Bracketed(ToString(a), '+', ToString(b))
    case Subtract(a, b) => Bracketed(ToString(a), '-', ToString(b))
    case Multiply(a, b) => Bracketed(ToString(a), '*', ToString(b))
    case Divide(a, b) => Bracketed(ToString(a), '/', ToString(b))
  }

  /** The digits of n read back as a decimal number give n. */
  lemma {:induction false} NatToStringDecimal(n: nat)
    ensures |NatToString(n)| > 0 && AllDigits(NatToString(n))
    ensures DecimalValue(NatToString(n)) == n
  {
    if n >= 10 {
      NatToStringDecimal(n / 10);
      var t := NatToString(n);
      assert t[..|t| - 1] == NatToString(n / 10);
    }
  }

  /** A printed literal is read back by parseNumericValue as the same number. */
  lemma NumberToStringRoundTrip(v: int)
    ensures var t := ToString(Number(v)); ParseNumericValue(t, 0, |t|) == Ok(v)
  {
    var t := ToString(Number(v));
    var digits := NatToString(if v < 0 then -v else v);
    NatToStringDecimal(if v < 0 then -v else v);
    if v < 0 {
      assert t == "-" + digits && t[1..] == digits;
    }
    assert t[0] != ' ' && t[|t| - 1] != ' ';
    assert TrimmedEnd(t, 0, |t|) == |t|;
    assert TrimmedStart(t, 0, |t|) == 0;
    assert t[0..|t|] == t;
  }

  /** A node over two non-negative literals prints as "(a) op (b)". */
  lemma ToStringOfLiteralNode(op: char, a: nat, b: nat)
    requires IsOperator(op)
    ensures ToString(MakeNode(op, Number(a), Number(b))) == Bracketed(NatToString(a), op, NatToString(b))
  {
  }

  /** Where the characters of "(x) op (y)" sit, for two runs of digits x and y. */
  lemma PrintedNodeLayout(x: string, y: string, op: char)
    requires |x| > 0 && |y| > 0 && AllDigits(x) && AllDigits(y)
    ensures var t := Bracketed(x, op, y);
            |t| == |x| + |y| + 7 && t[0] == '(' && t[|x| + 1] == ')' && t[|x| + 2] == ' ' &&
            t[|x| + 3] == op && t[|x| + 4] == ' ' && t[|x| + 5] == '(' && t[|t| - 1] == ')' &&
            t[1..|x| + 1] == x && DigitsOnly(t, 1, |x| + 1) && DigitsOnly(t, |x| + 6, |t| - 1)
  {
    var t := Bracketed(x, op, y);
    forall j | 1 <= j < |x| + 1
      ensures DigitAt(t, j)
    {
      assert t[j] == x[j - 1];
    }
    forall j | |x| + 6 <= j < |t| - 1
      ensures DigitAt(t, j)
    {
      assert t[j] == y[j - |x| - 6];
    }
    assert t[1..|x| + 1] == x;
  }

  /** The value JavaScript's operator gives on two integers; None for a zero divisor. */
  function Arithmetic(op: char, x: int, y: int): Option<real>
    requires IsOperator(op)
  {
    match op
    case '+' => Some(x as real + y as real)
    case '-' => Some(x as real - y as real)
    case '*' => Some(x as real * y as real)
    case '/' => if y == 0 then None else Some(x as real / y as real)
  }

  /** A node over two literals evaluates to the operator applied to them. */
  lemma EvaluateLiteralNode(op: char, x: int, y: int)
    requires IsOperator(op)
    ensures Evaluate(MakeNode(op, Number(x), Number(y))) == Arithmetic(op, x, y)
  {
    if op == '*' {
      var e := Multiply(Number(x), Number(y));
      assert MakeNode(op, Number(x), Number(y)) == e;
      assert Evaluate(e).Some?;
      var p := x as real * y as real;
      assert Evaluate(e).value == p;
    } else if op == '/' {
      assert y as real == 0.0 <==> y == 0;
    }
  }

  /**
   * What parseExpressionRecursive does with a window: return a tree, throw an
   * ExpressionParsingError of some kind, or (with the scans' fuel spent) spin.
   */
  datatype Outcome = Parsed(expr: Expr) | Failed(kind: ErrorKind) | Diverged

  /** term1 is parsed first; the first failure or divergence of the two decides. */
  function Join(op: char, term1: Outcome, term2: Outcome): (r: Outcome)
    requires IsOperator(op)
    ensures r.Parsed? <==> term1.Parsed? && term2.Parsed?
    ensures r.Parsed? ==> r.expr == MakeNode(op, term1.expr, term2.expr)
    ensures !term1.Parsed? ==> r == term1
    ensures term1.Parsed? && !term2.Parsed? ==> r == term2
  {
    if !term1.Parsed? then term1
    else if !term2.Parsed? then term2
    else Parsed(MakeNode(op, term1.expr, term2.expr))
  }
}
