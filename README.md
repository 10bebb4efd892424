# RadicalCalculator parser, modelled in Dafny

RadicalCalculator parses an arithmetic expression typed by the user into a tree
of `NumberExpression`, `AddExpression`, `SubtractExpression`,
`MultiplyExpression` and `DivideExpression` nodes. Each node has `evaluate()`
and `toString()`. The parser works on a half-open window `[startIndex,
endIndex)` of the input string. It trims spaces and strips outer parentheses.
It then looks for a `+` or `-` to split at, else a `*` or `/`, else it reads a
numeric literal. It recurses on the two sides.

The repository holds two snapshots of this parser. They behave differently, so
each is its own module:

- `Calculator` models `calculator.js`, the earlier snapshot.
  - Its scans run left to right.
  - `findCloseParenthesis` returns -1 when a `(` has no partner.
  - It strips at most one outer `(` … `)` pair, whether or not the two
    belong together.
  - When `findCloseParenthesis` returns -1, the scan index becomes -1 and the
    loop's `i++` restarts the scan at index 0 of the whole string, even when
    that lies outside the window.
- `CalculatorExpressions` models `calculator-expressions.js`, the later one.
  - Its scans run right to left.
  - `findCloseParenthesis` throws when there is no partner.
  - A `while` loop strips every redundant outer pair.
  - The multiplicative pass has an implicit-multiplication branch, built on
    `hasTermBeforeParentheses` and `hasTermAfterParentheses`.
  - When the additive scan meets a `(`, it sets its index to the partner `)`.
    The loop's `i--` then walks back over characters it has already seen, to
    the same `(`.

Shared modules:

- `Window` holds what both files define identically: reading a character, the
  parenthesis depth count, the two trims and `parseNumericValue`. The model
  cites `calculator-expressions.js` for these. The copies in `calculator.js`
  sit at lines 85-133.
- `Ast` holds the expression tree, `evaluate()` and `toString()`.
- `CalculatorCases` and `CalculatorExpressionsCases` prove what each parser
  makes of particular inputs. Each example lemma is stated for any string `s`
  that spells the input character for character (`Window.Spells`), that is,
  for that input.

How the model represents each snapshot's behaviour:

- **Windows and characters.** Windows are pairs of indices into a `string`.
  `charAt` outside the string answers the empty string, which equals no
  character (`Window.CharIs`).
- **Outcomes.** A parse either yields a tree (`Parsed`), throws an
  `ExpressionParsingError` of some kind (`Failed`), or does not end
  (`Diverged`).
- **Fuel.** Both snapshots have scan loops that can run forever. Each scan
  iteration spends one unit of a `fuel` argument, and a scan that runs out
  yields `Loops`, which becomes `Diverged`. The lemmas that prove divergence
  hold for every fuel. The lemmas that prove a tree or an error hold for
  every fuel above a stated bound.
- **Functions and methods.** Each loop of the source is a `method` with a
  `while` loop. Each such method is proved equal to a function that specifies
  it. The lemmas are stated about those functions.

## Model

| member | source | states |
|---|---|---|
| Window.MatchFrom | calculator-expressions.js:92-104 | from index i, with the depth so far, the loop stops at the first later `)` that brings the depth since the open paren back to zero; it reports none when no index before the end does |
| Window.MatchingClose | calculator-expressions.js:89-107 | Some(c) exactly when c is the first index of the window from the open paren on at which a `)` brings the count of `(` minus `)` back to zero; None when the window has no such index |
| Window.MatchingCloseOfFlatGroup | calculator-expressions.js:89-104 | a `(` followed by a `)` with no parenthesis between them is partnered by that `)` |
| Window.MatchingCloseOfUnclosed | calculator-expressions.js:89-107 | a `(` with no `)` after it in the window has no partner |
| Window.MatchingCloseOfWrapped | calculator-expressions.js:89-104 | a `(` directly followed by a group whose partner sits just before a `)` is partnered by that `)` |
| Window.TrimmedEnd | calculator-expressions.js:150-154 | the new end lies in the window (it stays put for an empty window), only spaces are dropped, and a character kept at the end is not a space |
| Window.TrimmedStart | calculator-expressions.js:156-160 | the new start lies in the window (it stays put for an empty window), only spaces are dropped, and a character kept at the start is not a space |
| Window.TrimmedEndIdempotent | calculator-expressions.js:150-154 | trimming the trailing spaces twice gives the same end as trimming once |
| Window.TrimmedStartIdempotent | calculator-expressions.js:156-160 | trimming the leading spaces twice gives the same start as trimming once |
| Window.TrimmedEndSkipsSpaces | calculator-expressions.js:150-154 | a window whose last non-space character ends at e, followed only by spaces, is trimmed to end e |
| Window.TrimmedStartSkipsSpaces | calculator-expressions.js:156-160 | a window whose first non-space character is at b, preceded only by spaces, is trimmed to start b |
| Window.TrimTrailingWhitespace | calculator-expressions.js:150-154 | the `while` loop that decrements endIndex computes the trimmed end |
| Window.TrimLeadingWhitespace | calculator-expressions.js:156-160 | the `while` loop that increments startIndex computes the trimmed start |
| Window.TrimmedText | calculator-expressions.js:162-169 | the substring parseNumericValue reads has no space at either end, and the window is spaces, that substring, then spaces |
| Window.ParseNumericValue | calculator-expressions.js:162-177 | it fails with the empty-expression error exactly when the window is all spaces; it succeeds exactly when the trimmed text is a literal that Number() accepts, and then returns that literal's value; it never reports an unmatched parenthesis |
| Window.IsLiteral | calculator-expressions.js:171-174 | the trimmed, non-empty texts over digits, space and `+-*/()` for which isNaN is false: an optional sign then a non-empty run of digits, so a literal ends in a digit and is digits after its first character |
| Window.LiteralValue | calculator-expressions.js:176 | what parseInt reads: a literal without `-` is not negative, a leading `+` leaves the value unchanged, and a leading `-` negates it |
| Window.ReadNumericValue | calculator-expressions.js:162-177 | the source's sequence of the two trim loops, the empty check and the isNaN check computes parseNumericValue's result |
| Ast.MakeNode | calculator-expressions.js:208-214 | `+` builds an Add, `-` a Subtract, `*` a Multiply and `/` a Divide node, with term1 and term2 as its children |
| Ast.Join | calculator-expressions.js:208-214 | the node is built exactly when both terms parse; term1 is parsed first, so its error wins, and otherwise term2's error is the result |
| Ast.Evaluate | calculator-expressions.js:27-69 | evaluate(): a literal is its value and each binary node applies its operator to its children's values; the tree has no value only when it holds a Divide node (a zero divisor) |
| Ast.NatToString | calculator-expressions.js:31-33 | the decimal digits Number.prototype.toString prints for a natural number: a non-empty run of digits |
| Ast.IntToString | calculator-expressions.js:31-33 | Number.prototype.toString on an integer: non-empty, starting with `-` exactly when the value is negative, and all digits otherwise |
| Ast.ToString | calculator-expressions.js:31-73 | toString(): never empty, and a binary node's text starts with `(` and ends with `)` |
| Ast.NatToStringDecimal | calculator-expressions.js:31-33 | the digits Number.prototype.toString prints for a natural number are a non-empty run of digits whose decimal value is that number |
| Ast.NumberToStringRoundTrip | calculator-expressions.js:31-33 | what a NumberExpression prints, negative values included, is read back by parseNumericValue as the same number |
| Ast.ToStringOfLiteralNode | calculator-expressions.js:41-73 | a binary node over two literals prints as `(a) op (b)` |
| Ast.PrintedNodeLayout | calculator-expressions.js:41-73 | in `(x) op (y)` the brackets, spaces and operator sit at fixed offsets around the two runs of digits |
| Ast.EvaluateLiteralNode | calculator-expressions.js:27-69 | evaluate() on a node over two literals is the sum, difference, product or quotient of the two; a zero divisor gives no value |
| Calculator.CloseIndex | calculator.js:85-104 | the answer is -1 exactly when the `(` has no partner in the window, and otherwise it is the partner's index |
| Calculator.FindCloseParenthesis | calculator.js:85-104 | the depth-counting `for` loop returns the partner's index, or -1 when there is none |
| Calculator.ForwardScan | calculator.js:161-177 | a pass splits only at an operator of its own tier below the window's end, which may lie before the window's start |
| Calculator.StripOnce | calculator.js:144-151 | the window is left alone unless it starts with `(` and ends with `)`; then both are dropped whether or not they are partners, the new window lies strictly inside, only spaces are trimmed off, and a non-empty new window is trimmed at both ends, as the re-trim at :149-150 leaves it |
| Calculator.ParseWindow | calculator.js:140-201 | a tree comes only from a window that is not empty or inverted; the earlier snapshot never reports an unmatched parenthesis, because its findCloseParenthesis answers -1 instead of throwing |
| Calculator.ParseStripped | calculator.js:156-200 | the defining function of the two passes and the literal read on a stripped, non-empty window; it never reports an unmatched parenthesis |
| Calculator.SplitAt | calculator.js:164-170 | the defining function of a split: the node over `[start, i)` and `[i+1, end)`, left term parsed first; it never reports an unmatched parenthesis |
| Calculator.Parse | calculator.js:203-205 | parseExpression: a tree only from a non-empty input, and never the unmatched-parenthesis error |
| Calculator.ParseIgnoresSurroundingSpaces | calculator.js:141-142 | spaces around a window do not change what it parses to |
| Calculator.ForwardScanWalks | calculator.js:161-177 | over characters that are neither the pass's operators nor `(`, the scan moves right one character per unit of fuel |
| Calculator.ForwardScanStarves | calculator.js:161-177 | with less fuel than such characters, the scan is cut off |
| Calculator.ForwardScanSkipsGroup | calculator.js:174-176 | at a `(` with a partner, the scan continues just after the partner `)` |
| Calculator.PlainIsTopLevelFree | calculator.js:161-177 | a stretch without `(` and without the pass's operators is crossed by the scan one character at a time, with no stop |
| Calculator.ForwardScanSplitsAtTopLevel | calculator.js:161-177 | with one unit of fuel per character, the scan stops at the first operator of its pass that lies outside every partnered group |
| Calculator.ForwardScanPassesTopLevel | calculator.js:161-177 | a window with no operator of the pass outside its partnered groups lets the pass through |
| Calculator.ForwardScanRestartsAtZero | calculator.js:174-176 | at a `(` without a partner, the -1 answer makes the scan continue at index 0 of the string |
| Calculator.ForwardScanLoopsAtUnmatched | calculator.js:174-176 | when nothing from index 0 up to an unpartnered `(` stops the scan, it never ends, whatever the fuel |
| Calculator.ForwardScanCycles | calculator.js:161-177 | when the scan from index 0 comes back to the same unpartnered `(` some steps later, it never ends, whatever the fuel |
| Calculator.ParseWindowUnwrapped | calculator.js:144-154 | a trimmed window that does not start with `(` and end with `)` goes straight to the two passes |
| Calculator.ParseStripsOnePair | calculator.js:144-151 | a trimmed window wrapped in `(` … `)` whose inside is not wrapped again parses as its inside |
| Calculator.ParseStrippedAtAdditiveSplit | calculator.js:161-171 | when the first pass stops at index i, the result is the node over `[start, i)` and `[i+1, end)` |
| Calculator.ParseStrippedAtMultiplicativeSplit | calculator.js:180-190 | when the first pass finds nothing and the second stops at index i, the result is the node over `[start, i)` and `[i+1, end)` |
| Calculator.ParseSplitsAtLeftmostAdditive | calculator.js:161-177 | a trimmed, unwrapped window splits at its leftmost `+` or `-` outside every partnered group (the groups before it are jumped over), so chains nest to the right |
| Calculator.ParseSplitsAtLeftmostMultiplicative | calculator.js:161-196 | a trimmed, unwrapped window with no `+` or `-` outside its partnered groups splits at its leftmost `*` or `/` outside every partnered group |
| Calculator.ParseLiteralWindow | calculator.js:198-200 | a window without operators and `(` parses to what parseNumericValue reads from it, error included |
| Calculator.ParseDigits | calculator.js:198-200 | a non-empty run of digits parses to the number it spells |
| Calculator.ParseDoubleWrappedFails | calculator.js:144-151 | a window wrapped twice, with the inner pair partnered, loses only the outer pair, and the rest is refused as a literal |
| Calculator.ParseDivergesAtUnmatched | calculator.js:174-176 | a trimmed window that opens with an unpartnered `(` and does not end in `)` never finishes parsing, whatever the fuel, when nothing from index 0 up to the window stops the restarted scan |
| Calculator.ForwardScanMonotone | calculator.js:161-196 | a scan that stops or falls through with some fuel does the same with more |
| Calculator.ParseWindowMonotone | calculator.js:140-201 | a tree or an error reached with some fuel is reached with any larger fuel |
| Calculator.ParseStrippedMonotone | calculator.js:156-200 | the same for the passes and the literal |
| Calculator.SplitAtMonotone | calculator.js:164-170 | the same for a split |
| Calculator.ParseMonotone | calculator.js:203-205 | the same for parseExpression, so the fuel chosen in a lemma about a tree or an error does not matter once it is enough |
| Calculator.OperatorPass | calculator.js:161-177 | the `for` loop, with `i` overwritten by findCloseParenthesis, computes the pass's decision |
| Calculator.ParseExpressionRecursive | calculator.js:140-154 | trimming, the single strip and the empty check compute the window's outcome |
| Calculator.ParseOperators | calculator.js:156-200 | the two passes, the recursive calls on the two sides (left first) and the literal read compute the outcome of the stripped window |
| Calculator.ParseExpression | calculator.js:203-205 | parseExpression parses the whole input |
| CalculatorCases.BinaryOperands | calculator.js:198-200 | the two runs of digits of `x op y` parse to their numbers |
| CalculatorCases.ParseBinaryOfDigits | calculator.js:161-190 | two runs of digits around one operator parse to that operator's node over the two numbers |
| CalculatorCases.ParseBinaryOfLiterals | calculator.js:161-190 | two printed natural numbers around one operator parse to that operator's node, and the tree evaluates to the operator applied to them |
| CalculatorCases.SubtractionRightOperand | calculator.js:161-171 | in `10-3-2` the window after the first `-` parses to 3 - 2 |
| CalculatorCases.SubtractionGroupsRight | calculator.js:161-171 | `10-3-2` parses to 10 - (3 - 2): the split at the leftmost operator nests to the right |
| CalculatorCases.DivisionRightOperand | calculator.js:180-190 | in `20/4/5` the window after the first `/` parses to 4 / 5 |
| CalculatorCases.DivisionGroupsRight | calculator.js:180-190 | `20/4/5` parses to 20 / (4 / 5) |
| CalculatorCases.BracketedFactorScans | calculator.js:174-195 | in `2*(3+4)` the additive pass skips the group and finds nothing, and the multiplicative pass stops at the `*` |
| CalculatorCases.BracketedFactorRoot | calculator.js:180-190 | `2*(3+4)` is the product node of `2` and the inside of the group |
| CalculatorCases.SumOfDigits | calculator.js:161-171 | a digit, `+` and a digit parse to the sum node of the two digits |
| CalculatorCases.BracketedFactor | calculator.js:180-195 | `2*(3+4)` parses to 2 * (3 + 4): operators inside a partnered group are skipped |
| CalculatorCases.BracketedLeftFactorScans | calculator.js:174-195 | in `(1+2)*3` both passes skip the leading group, and the multiplicative pass then stops at `*` |
| CalculatorCases.BracketedLeftFactorRoot | calculator.js:180-190 | `(1+2)*3` is the product node of the inside of the group and `3` |
| CalculatorCases.BracketedLeftFactor | calculator.js:180-195 | `(1+2)*3` parses to (1 + 2) * 3 |
| CalculatorCases.SinglePair | calculator.js:144-151 | `(5)` parses to 5 |
| CalculatorCases.DoublePairRefused | calculator.js:144-151 | `((5))` loses only one pair and fails the literal check |
| CalculatorCases.MismatchedStrip | calculator.js:144-151 | `(1)+(2)` has its first and last characters dropped though they are not partners, and fails at the literal `1)` |
| CalculatorCases.UnclosedParenthesisDiverges | calculator.js:174-176 | `(1+2` never finishes parsing: the scan restarts at index 0 forever |
| CalculatorCases.ImplicitProductRefused | calculator.js:193-200 | `2(3)` has no operator outside the group, so it reaches the literal check and fails |
| CalculatorCases.RestartSplitsOutsideWindow | calculator.js:174-176 | in `1+(2` the restarted scan of the right term finds the `+` before its own window; the inverted left window is empty, so parsing fails |
| CalculatorCases.EmptyInputs | calculator.js:153-154 | the empty input, an input of spaces and `()` fail as empty expressions, whatever the fuel |
| CalculatorCases.PrintedNodeShape | calculator.js:27-69 | a node over two literals prints as `(x) op (y)` with x and y the digits of the two numbers |
| CalculatorCases.PrintedNodeStripped | calculator.js:144-151 | the single strip drops the outer `(` and `)` of a printed node, though they are not partners |
| CalculatorCases.PrintedSumShapeRefused | calculator.js:161-171 | in a printed `(x) + (y)` or `(x) - (y)` the left term `x) ` is no literal, so parsing fails |
| CalculatorCases.PrintedSumRefused | calculator.js:37-49 | what toString prints for a sum or a difference of two literals is not read back: it fails as an invalid literal |
| CalculatorCases.PrintedProductScanLoops | calculator.js:174-176 | the additive scan of a stripped printed product or quotient never ends, whatever the fuel |
| CalculatorCases.PrintedProductShapeDiverges | calculator.js:174-176 | a printed `(x) * (y)` or `(x) / (y)` never finishes parsing |
| CalculatorCases.PrintedProductDiverges | calculator.js:57-69 | what toString prints for a product or a quotient of two literals is not read back: parsing it never ends |
| CalculatorCases.ExampleValues | calculator.js:23-65 | the trees above evaluate to 9, 25, 14 and 9 |
| CalculatorExpressions.TermBeforeFrom | calculator-expressions.js:111-127 | the backward loop from index i answers true exactly when its nearest non-space character at or below i ends a term (a `)` or a digit) |
| CalculatorExpressions.TermBefore | calculator-expressions.js:110-128 | true exactly when the nearest non-space character before the `(` in the window is `)` or a digit; false when only spaces are found |
| CalculatorExpressions.TermAfterFrom | calculator-expressions.js:131-147 | the forward loop from index i answers true exactly when its nearest non-space character starts a term (a `(` or a digit) |
| CalculatorExpressions.TermAfter | calculator-expressions.js:130-148 | true exactly when the nearest non-space character after the `)` in the window is `(` or a digit; false when only spaces are found |
| CalculatorExpressions.HasTermBeforeParentheses | calculator-expressions.js:110-128 | the backward loop computes whether a term touches the `(` on its left |
| CalculatorExpressions.HasTermAfterParentheses | calculator-expressions.js:130-148 | the forward loop computes whether a term touches the `)` on its right |
| CalculatorExpressions.StripRedundant | calculator-expressions.js:188-195 | a window that does not start with `(`, or whose leading `(` is partnered before the last character, is returned unchanged; a leading `(` without a partner gives the unmatched-parenthesis error; the final window lies inside the first and is not wrapped in a partnered pair; each pass of the loop shrinks the window by at least two; any error needs a `(` in the window or just after it |
| CalculatorExpressions.StripRedundantStep | calculator-expressions.js:189-195 | a leading `(` partnered by the last character is dropped with it, what is left is trimmed, and the loop carries on from there |
| CalculatorExpressions.StripRedundantParentheses | calculator-expressions.js:189-195 | the `while` loop that reassigns startIndex and endIndex computes the stripped window or the error |
| CalculatorExpressions.AdditiveScan | calculator-expressions.js:205-221 | the first pass splits only at a `+` or `-` inside the window, with left side `[start, i)` and right side `[i+1, end)`; its only error is the unmatched-parenthesis error, which needs a `(` in the window |
| CalculatorExpressions.MultiplicativeScan | calculator-expressions.js:224-252 | the second pass splits only inside the window: at a `*` or `/` character, with the right term just after it, or as an empty-width `*` either before a `(` that has a term before it or after a `)` that has a term after it; its only error is the unmatched-parenthesis error, which needs a `(` in the window |
| CalculatorExpressions.ParseWindow | calculator-expressions.js:184-257 | a tree comes only from a window that is not all spaces; the unmatched-parenthesis error needs a `(` in the window or at the index just after it |
| CalculatorExpressions.ParseStripped | calculator-expressions.js:200-256 | the defining function of the two passes and the literal read on a stripped, non-empty window; the unmatched-parenthesis error needs a `(` in the window or just after it |
| CalculatorExpressions.SplitAt | calculator-expressions.js:208-249 | the defining function of a split: the node over the two sides, left term parsed first; the unmatched-parenthesis error needs a `(` in the window or just after it |
| CalculatorExpressions.Parse | calculator-expressions.js:259-261 | parseExpression: a tree only from an input that is not all spaces, and the unmatched-parenthesis error only from an input that contains a `(` |
| CalculatorExpressions.Passes | calculator-expressions.js:205-252 | the additive pass decides unless it finds nothing, and then the multiplicative pass decides; either way the split lies in the window and its operator is one of the four; the two passes spin exactly when the additive one does |
| CalculatorExpressions.ParseWindowUnwrapped | calculator-expressions.js:189-198 | a trimmed window that does not start with a `(` partnered by its last character goes straight to the passes |
| CalculatorExpressions.ParseIgnoresSurroundingSpaces | calculator-expressions.js:185-186 | spaces around a window do not change what it parses to |
| CalculatorExpressions.AdditiveScanWalks | calculator-expressions.js:205-221 | over characters other than `+`, `-` and `(`, the scan moves left one character per unit of fuel |
| CalculatorExpressions.AdditiveScanStarves | calculator-expressions.js:205-221 | with no more fuel than such characters, the scan is cut off |
| CalculatorExpressions.AdditiveScanFallsThrough | calculator-expressions.js:205-221 | a window without `+`, `-` and `(` falls through the first pass |
| CalculatorExpressions.AdditiveScanSplitsAtRightmost | calculator-expressions.js:205-215 | when the rightmost `+`, `-` or `(` of the window is an operator, the first pass splits there |
| CalculatorExpressions.AdditiveScanThrowsAtUnmatched | calculator-expressions.js:218-220 | when the rightmost `+`, `-` or `(` is a `(` without a partner, findCloseParenthesis throws |
| CalculatorExpressions.AdditiveScanLoopsAtGroup | calculator-expressions.js:217-220 | when the rightmost `+`, `-` or `(` is a `(` with a partner, the jump to the partner and the walk back lead to the same `(` again, so the scan never ends, whatever the fuel |
| CalculatorExpressions.AdditiveScanNeverFallsThroughMark | calculator-expressions.js:205-251 | a window that holds any `+`, `-` or `(` never falls through the first pass, so the implicit-multiplication branch, which needs a `(`, never runs |
| CalculatorExpressions.MultiplicativeScanWalks | calculator-expressions.js:224-252 | over characters other than `*`, `/`, `+`, `-` and `(`, the second pass moves left |
| CalculatorExpressions.ParseStrippedAtSplit | calculator-expressions.js:205-234 | when the passes split at the operator at k, the result is the node over `[start, k)` and `[k+1, end)` |
| CalculatorExpressions.ParseSplitsAtRightmostAdditive | calculator-expressions.js:205-215 | a trimmed window left alone by the strip loop splits at its rightmost `+` or `-` when no `(` follows it, so chains nest to the left |
| CalculatorExpressions.ParseDivergesAtGroup | calculator-expressions.js:217-220 | a trimmed window left alone by the strip loop, whose rightmost `+`, `-` or `(` is a partnered `(`, never finishes parsing, whatever the fuel |
| CalculatorExpressions.ParseSplitsAtRightmostMultiplicative | calculator-expressions.js:224-234 | a trimmed window without `+`, `-` and `(` splits at its rightmost `*` or `/` |
| CalculatorExpressions.ParseWindowStripped | calculator-expressions.js:189-198 | a trimmed window that the strip loop reduces to a non-empty window parses as that window |
| CalculatorExpressions.ParseThrowsAtUnmatched | calculator-expressions.js:218-220 | a trimmed window left alone by the strip loop, whose rightmost `+`, `-` or `(` is an unpartnered `(`, fails with the unmatched-parenthesis error |
| CalculatorExpressions.ParseNodeAtRightmostAdditive | calculator-expressions.js:205-215 | when both sides of the rightmost `+` or `-` parse, the window parses to that operator's node over them |
| CalculatorExpressions.ParseLeftFailsAtRightmostAdditive | calculator-expressions.js:205-215 | when the left side of the rightmost `+` or `-` does not parse, its outcome is the window's |
| CalculatorExpressions.ParseNodeAtRightmostMultiplicative | calculator-expressions.js:224-234 | when both sides of the rightmost `*` or `/` of a window without `+`, `-` and `(` parse, the window parses to that operator's node over them |
| CalculatorExpressions.ParseLiteralWindow | calculator-expressions.js:254-256 | a window without operators and `(` parses to what parseNumericValue reads from it, error included |
| CalculatorExpressions.ParseDigits | calculator-expressions.js:254-256 | a non-empty run of digits parses to the number it spells |
| CalculatorExpressions.AdditiveScanMonotone | calculator-expressions.js:208-222 | an additive scan that stops, throws or falls through with some fuel does the same with more |
| CalculatorExpressions.ParseWindowMonotone | calculator-expressions.js:184-257 | a tree or an error reached with some fuel is reached with any larger fuel |
| CalculatorExpressions.ParseStrippedMonotone | calculator-expressions.js:200-256 | the same for the passes and the literal |
| CalculatorExpressions.SplitAtMonotone | calculator-expressions.js:208-249 | the same for a split |
| CalculatorExpressions.ParseMonotone | calculator-expressions.js:259-261 | the same for parseExpression |
| CalculatorExpressions.FindCloseParenthesis | calculator-expressions.js:89-108 | the depth-counting `for` loop returns the partner's index, or throws (None) when there is none |
| CalculatorExpressions.AdditivePass | calculator-expressions.js:205-221 | the backward `for` loop, with `i` overwritten by findCloseParenthesis, computes the first pass's decision |
| CalculatorExpressions.MultiplicativePass | calculator-expressions.js:224-252 | the backward `for` loop with its implicit-multiplication branch computes the second pass's decision |
| CalculatorExpressions.ParseExpressionRecursive | calculator-expressions.js:184-198 | trimming, the strip loop and the empty check compute the window's outcome |
| CalculatorExpressions.ParseOperators | calculator-expressions.js:200-256 | the two passes, the recursive calls on the two sides (left first) and the literal read compute the outcome of the stripped window |
| CalculatorExpressions.ParseExpression | calculator-expressions.js:259-261 | parseExpression parses the whole input |
| CalculatorExpressionsCases.BinaryOperands | calculator-expressions.js:254-256 | the two runs of digits of `x op y` parse to their numbers |
| CalculatorExpressionsCases.ParseBinaryOfDigits | calculator-expressions.js:205-234 | two runs of digits around one operator parse to that operator's node over the two numbers |
| CalculatorExpressionsCases.ParseBinaryOfLiterals | calculator-expressions.js:205-234 | two printed natural numbers around one operator parse to that operator's node, and the tree evaluates to the operator applied to them |
| CalculatorExpressionsCases.SubtractionLeftOperand | calculator-expressions.js:205-215 | in `10-3-2` the window before the second `-` parses to 10 - 3 |
| CalculatorExpressionsCases.SubtractionGroupsLeft | calculator-expressions.js:205-215 | `10-3-2` parses to (10 - 3) - 2 |
| CalculatorExpressionsCases.DivisionLeftOperand | calculator-expressions.js:224-234 | in `20/4/5` the window before the second `/` parses to 20 / 4 |
| CalculatorExpressionsCases.DivisionGroupsLeft | calculator-expressions.js:224-234 | `20/4/5` parses to (20 / 4) / 5 |
| CalculatorExpressionsCases.SpacedDigit | calculator-expressions.js:254-256 | one digit with spaces around it parses to its value |
| CalculatorExpressionsCases.ProductWithSpaces | calculator-expressions.js:224-234 | in ` 1 + 2 * 3 ` the window after the `+` parses to 2 * 3 |
| CalculatorExpressionsCases.PrecedenceAndSpaces | calculator-expressions.js:184-234 | ` 1 + 2 * 3 ` parses to 1 + (2 * 3): spaces are dropped and `*` binds tighter than `+` |
| CalculatorExpressionsCases.EmptyInputs | calculator-expressions.js:197-198 | the empty input, an input of spaces and `()` fail as empty expressions, whatever the fuel |
| CalculatorExpressionsCases.MissingRightOperand | calculator-expressions.js:208-209 | `1+` fails because its right term is empty |
| CalculatorExpressionsCases.NoUnaryMinus | calculator-expressions.js:205-209 | `-5` fails: the `-` is an operator whose left term is empty |
| CalculatorExpressionsCases.UnclosedParenthesis | calculator-expressions.js:189 | `(1+2` fails with the unmatched-parenthesis error in the strip loop |
| CalculatorExpressionsCases.InvalidCharacter | calculator-expressions.js:172-174 | `1+2x` fails at the literal check of `2x` |
| CalculatorExpressionsCases.RedundantParentheses | calculator-expressions.js:189-195 | `(((5)))` parses to 5 |
| CalculatorExpressionsCases.ImplicitProductDiverges | calculator-expressions.js:217-220 | `2(3)` never finishes parsing, whatever the fuel |
| CalculatorExpressionsCases.BracketedSumDiverges | calculator-expressions.js:217-220 | `(1)+(2)` never finishes parsing, whatever the fuel |
| CalculatorExpressionsCases.BracketedFactorSplitsInside | calculator-expressions.js:205-220 | the backward scan enters a group it meets at its `)`, so `2*(3+4)` is split at the inner `+` and fails with the unmatched-parenthesis error |
| CalculatorExpressionsCases.ImplicitProductOfSumFails | calculator-expressions.js:205-220 | `2(3+4)` is split at the inner `+` and fails with the unmatched-parenthesis error; it is never read as an implicit product |
| CalculatorExpressionsCases.GroupEnteredFromTheRight | calculator-expressions.js:205-220 | `(1+2)*3` is split at the `+` inside the group and fails with the unmatched-parenthesis error |
| CalculatorExpressionsCases.PrintedNodeDiverges | calculator-expressions.js:41-73 | what toString prints for any binary node over two literals is not read back: parsing it never ends |
| CalculatorExpressionsCases.ExampleValues | calculator-expressions.js:27-69 | the trees above evaluate to 5, 1 and 7 |

## Where the code and its comments disagree

The model follows the code in each of these cases.

- **findCloseParenthesis in the later snapshot.** Its doc comment
  (calculator-expressions.js:87) says it returns -1 when no partner is
  found. The code throws an ExpressionParsingError instead (line 107).
- **Groups in the later snapshot's additive scan.** The comment at
  calculator-expressions.js:217 says the pass skips over parentheses. The
  scan runs right to left, but at a `(` it jumps forward to the partner `)`
  (lines 218-220), and the loop's `i--` walks back to the same `(`. So the
  scan never ends at a partnered `(`, and a group it meets at its `)` is
  entered, not skipped (`CalculatorExpressions.AdditiveScanLoopsAtGroup`).
- **Implicit multiplication in the later snapshot.** The comment at
  calculator-expressions.js:240-241 says a term right next to a group is
  treated as a multiplication. That branch needs a `(` in the window, and
  the additive pass never lets such a window through
  (`CalculatorExpressions.AdditiveScanNeverFallsThroughMark`). So `2(3+4)`
  fails and `2(3)` never finishes parsing.

Other facts of the code that the model keeps:

- The earlier snapshot splits at the leftmost operator, so `10-3-2` is
  10 - (3 - 2) there.
- hasTermBeforeParentheses and hasTermAfterParentheses answer `!isNaN(c)`
  for a character other than a space and a parenthesis, which is false for
  an operator (calculator-expressions.js:124, :144).
- `isNaN("-5")` is false and `parseInt` reads the sign, so parseNumericValue
  accepts a signed window (`Window.IsLiteral`). A window that holds a sign
  and no `(` is split at the sign by the additive pass first.
- Neither file has an exponentiation operator; a `^` reaches the literal
  check and is refused.

## Left out

- calculator-ui.js (the DOM lookups, event listeners and console output) is
  not part of this model. Its submit handler is a TODO
  (calculator-ui.js:29) that does not call the parser.
- Floating point.
  - Values are exact integers and rationals.
  - Ast.Evaluate yields no value for a zero divisor, where JavaScript gives
    Infinity or NaN.
  - The precision lost when parseInt reads a literal beyond 2^53 is not
    modelled; the value is the exact integer.
- JavaScript's `isNaN`, `Number` and `parseInt` coercions are modelled only
  over the alphabet of digits, space and `+-*/()`. Inputs such as `1e5`,
  `0x10`, `1.5` and tabs, which coerce differently, are outside the model.
  `Window.IsDigit` stands for `!isNaN(c)` on a single character.
- Ast.NumberToStringRoundTrip: prints every integer as plain decimal digits.
  It does not model the exponent form that Number.prototype.toString uses
  from 1e21 on.
- Error messages and the indices they report are left out. Each
  `ExpressionParsingError` becomes one of three error kinds.
- The implicit globals `numericString` and `closeParenIndex` are locals in
  the model; they do not affect results.
- Which of the two same-named global definitions the page loads is not
  modelled; each snapshot is its own module.
- Non-termination becomes an explicit fuel bound. `Diverged` stands for a
  loop that never ends, and the lemmas that conclude `Diverged` hold for
  every fuel. A tree or an error, once reached, stays the same for every
  larger fuel (`Calculator.ParseMonotone`, `CalculatorExpressions.ParseMonotone`).
- Calculator.ParseOperators and CalculatorExpressions.ParseOperators run a
  scan method that returns the split, then make the two recursive calls after
  it. The source makes those calls inside the loop body. The order of the
  calls, left term first, is kept.
- Stack overflow of the JavaScript engine on deeply nested input is not
  modelled.
