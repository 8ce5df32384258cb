/**
 * What the grammar of `SimpleCalculator.evaluate` accepts and how it groups
 * operators, stated over the grammar functions of module SimpleCalculator.
 *
 * `Print` writes a tree back as text with every operation in parentheses; the
 * round trip `ParseAll(Print(e)) == Ok(e)` shows that the parser rebuilds any
 * well-formed tree, and the lemmas that glue printed operands with bare
 * operators show the precedence and associativity the parser gives them.
 */
module SimpleCalculatorProperties {
  import opened Text
  import opened Wrappers
  import opened SimpleCalculator

  // ---------------------------------------------------------------------------
  // Writing a tree back as text

  /** A tree the parser can produce: every number token is one `toDouble` accepts. */
  predicate WellFormed(e: Expr) {
    match e
    case Num(t) => ValidNumber(t) && forall k :: 0 <= k < |t| ==> InRun(t[k] as int, Digits)
    case Neg(x) => WellFormed(x)
    case Add(l, r) => WellFormed(l) && WellFormed(r)
    case Sub(l, r) => WellFormed(l) && WellFormed(r)
    case Mul(l, r) => WellFormed(l) && WellFormed(r)
    case Div(l, r) => WellFormed(l) && WellFormed(r)
    case Pow(l, r) => WellFormed(l) && WellFormed(r)
    case Call(_, x) => WellFormed(x)
  }

  function Binary(l: string, op: char, r: string): string {
    "(" + l + [op] + r + ")"
  }

  /** The text of a tree, with each operation parenthesised. */
  function Print(e: Expr): (r: string)
    ensures WellFormed(e) ==> |r| > 0 && (r[0] == '(' || InRun(r[0] as int, Digits))
  {
    match e
    case Num(t) => t
    case Neg(x) => "(-" + Print(x) + ")"
    case Add(l, r) => Binary(Print(l), '+', Print(r))
    case Sub(l, r) => Binary(Print(l), '-', Print(r))
    case Mul(l, r) => Binary(Print(l), '*', Print(r))
    case Div(l, r) => Binary(Print(l), '/', Print(r))
    case Pow(l, r) => Binary(Print(l), '^', Print(r))
    case Call(f, x) => "(" + FuncName(f) + Print(x) + ")"
  }

  /** `t` occurs in `s` at position `i`. */
  predicate At(s: string, i: nat, t: string) {
    i + |t| <= |s| && forall k :: 0 <= k < |t| ==> s[i + k] == t[k]
  }

  lemma AtSplit(s: string, i: nat, a: string, b: string)
    requires At(s, i, a + b)
    ensures At(s, i, a) && At(s, i + |a|, b)
  {
    forall k | 0 <= k < |a|
      ensures s[i + k] == a[k]
    {
      assert (a + b)[k] == a[k];
    }
    forall k | 0 <= k < |b|
      ensures s[i + |a| + k] == b[k]
    {
      assert (a + b)[|a| + k] == b[k];
    }
  }

  /** The pieces of `Binary(l, op, r)` found at position `i`, with `j` at the operator and `end` at the `)`. */
  lemma AtBinary(s: string, i: nat, l: string, op: char, r: string, j: nat, end: nat)
    requires At(s, i, Binary(l, op, r)) && j == i + 1 + |l| && end == j + 1 + |r|
    ensures CodeAt(s, i) == '(' as int && At(s, i + 1, l)
    ensures CodeAt(s, j) == op as int && At(s, j + 1, r)
    ensures CodeAt(s, end) == ')' as int && end < |s|
  {
    AtSplit(s, i, "(" + l + [op] + r, ")");
    AtSplit(s, i, "(" + l + [op], r);
    AtSplit(s, i, "(" + l, [op]);
    AtSplit(s, i, "(", l);
    assert s[i + 0] == "("[0];
    assert s[j + 0] == [op][0];
    assert s[end + 0] == ")"[0];
  }

  /** The pieces of `"(" + a + b + ")"` found at position `i`, with `k` at the start of `b` and `end` at the `)`. */
  lemma AtWrapped(s: string, i: nat, a: string, b: string, k: nat, end: nat)
    requires At(s, i, "(" + a + b + ")") && k == i + 1 + |a| && end == k + |b|
    ensures CodeAt(s, i) == '(' as int && At(s, i + 1, a) && At(s, k, b)
    ensures CodeAt(s, end) == ')' as int && end < |s|
  {
    AtSplit(s, i, "(" + a + b, ")");
    AtSplit(s, i, "(" + a, b);
    AtSplit(s, i, "(", a);
    assert s[i + 0] == "("[0];
    assert s[end + 0] == ")"[0];
  }

  /** The first character of a non-empty piece. */
  lemma AtFirst(s: string, i: nat, t: string)
    requires At(s, i, t) && |t| > 0
    ensures CodeAt(s, i) == t[0] as int
  {
    assert s[i + 0] == t[0];
  }

  // ---------------------------------------------------------------------------
  // Single steps of the cursor

  lemma EatMiss(s: string, i: nat, c: char)
    requires i <= |s| && CodeAt(s, i) != ' ' as int && CodeAt(s, i) != c as int
    ensures EatAt(s, i, c) == (false, i)
  {
  }

  lemma EatHit(s: string, i: nat, c: char, next: nat)
    requires i <= |s| && c != ' ' && CodeAt(s, i) == c as int && next == i + 1
    ensures EatAt(s, i, c) == (true, next)
  {
  }

  lemma RunEndAt(s: string, i: nat, t: string, k: Run)
    requires At(s, i, t) && !InRun(CodeAt(s, i + |t|), k)
    requires forall m :: 0 <= m < |t| ==> InRun(t[m] as int, k)
    ensures RunEnd(s, i, k) == i + |t|
    decreases |t|
  {
    if t != [] {
      assert s[i + 0] == t[0];
      AtSplit(s, i, t[..1], t[1..]);
      assert t[..1] + t[1..] == t;
      RunEndAt(s, i + 1, t[1..], k);
    }
  }

  lemma FuncNameNamed(f: Func)
    ensures FuncNamed(FuncName(f)) == Some(f)
  {
  }

  // ---------------------------------------------------------------------------
  // The rules of the grammar, one production at a time

  /** A finished term followed by no `*` or `/` is the whole term. */
  lemma TermTailStops(s: string, i: nat, x: Expr)
    requires i <= |s| && TermStop(CodeAt(s, i))
    ensures TermTail(s, i, x) == Ok(Parsed(x, i))
  {
    EatMiss(s, i, '*');
    EatMiss(s, i, '/');
  }

  /** A finished expression followed by no `+` or `-` is the whole expression. */
  lemma ExpressionTailStops(s: string, i: nat, x: Expr)
    requires i <= |s| && ExpressionStop(CodeAt(s, i))
    ensures ExpressionTail(s, i, x) == Ok(Parsed(x, i))
  {
    EatMiss(s, i, '+');
    EatMiss(s, i, '-');
  }

  lemma TermOfFactor(s: string, i: nat, x: Expr, end: nat)
    requires i <= |s| && Factor(s, i) == Ok(Parsed(x, end)) && TermStop(CodeAt(s, end))
    ensures Term(s, i) == Ok(Parsed(x, end))
  {
    TermTailStops(s, end, x);
  }

  lemma ExpressionOfTerm(s: string, i: nat, x: Expr, end: nat)
    requires i <= |s| && Term(s, i) == Ok(Parsed(x, end)) && ExpressionStop(CodeAt(s, end))
    ensures Expression(s, i) == Ok(Parsed(x, end))
  {
    ExpressionTailStops(s, end, x);
  }

  /** A factor that starts with neither a space nor a sign is a primary with no `^` after it. */
  lemma FactorOfPrimary(s: string, i: nat, x: Expr, end: nat)
    requires i <= |s| && CodeAt(s, i) != ' ' as int && CodeAt(s, i) != '+' as int && CodeAt(s, i) != '-' as int
    requires Primary(s, i) == Ok(Parsed(x, end)) && FactorStop(CodeAt(s, end))
    ensures Factor(s, i) == Ok(Parsed(x, end))
  {
    EatMiss(s, i, '+');
    EatMiss(s, i, '-');
    EatMiss(s, end, '^');
  }

  /** `primary ^ factor`: the exponent is a whole factor. */
  lemma FactorPow(s: string, i: nat, x: Expr, j: nat, k: nat, y: Expr, end: nat)
    requires i <= |s| && CodeAt(s, i) != ' ' as int && CodeAt(s, i) != '+' as int && CodeAt(s, i) != '-' as int
    requires Primary(s, i) == Ok(Parsed(x, j)) && CodeAt(s, j) == '^' as int && k == j + 1
    requires Factor(s, k) == Ok(Parsed(y, end))
    ensures Factor(s, i) == Ok(Parsed(Pow(x, y), end))
  {
    EatMiss(s, i, '+');
    EatMiss(s, i, '-');
    EatHit(s, j, '^', k);
  }

  /** Unary minus negates the whole factor after it. */
  lemma FactorNeg(s: string, i: nat, k: nat, x: Expr, end: nat)
    requires i <= |s| && CodeAt(s, i) == '-' as int && k == i + 1 && Factor(s, k) == Ok(Parsed(x, end))
    ensures Factor(s, i) == Ok(Parsed(Neg(x), end))
  {
    EatMiss(s, i, '+');
    EatHit(s, i, '-', k);
  }

  /** A parenthesised expression whose `)` is present. */
  lemma PrimaryParenthesised(s: string, i: nat, k: nat, x: Expr, end: nat, after: nat)
    requires i <= |s| && CodeAt(s, i) == '(' as int && k == i + 1 && Expression(s, k) == Ok(Parsed(x, end))
    requires CodeAt(s, end) == ')' as int && after == end + 1
    ensures Primary(s, i) == Ok(Parsed(x, after))
  {
    EatHit(s, i, '(', k);
    EatHit(s, end, ')', after);
  }

  /** A parenthesised expression whose `)` is missing: `eat(')')` fails and the expression stands. */
  lemma PrimaryUnclosed(s: string, i: nat, k: nat, x: Expr, end: nat)
    requires i <= |s| && CodeAt(s, i) == '(' as int && k == i + 1 && Expression(s, k) == Ok(Parsed(x, end))
    requires CodeAt(s, end) != ')' as int
    ensures Primary(s, i) == Ok(Parsed(x, end))
  {
    EatHit(s, i, '(', k);
    EatMiss(s, end, ')');
  }

  /** A failing primary fails the factor, the term, the expression and `parse()` with the same error. */
  lemma PrimaryErrorFailsParse(s: string)
    requires CodeAt(s, 0) != ' ' as int && CodeAt(s, 0) != '+' as int && CodeAt(s, 0) != '-' as int
    requires Primary(s, 0).Err?
    ensures ParseAll(s) == Err(Primary(s, 0).error)
  {
    EatMiss(s, 0, '+');
    EatMiss(s, 0, '-');
    assert Factor(s, 0) == Err(Primary(s, 0).error);
    assert Term(s, 0) == Err(Primary(s, 0).error);
  }

  /** A number token: the longest run of digits and dots, accepted when it is a valid number. */
  lemma PrimaryNumber(s: string, i: nat, t: string, end: nat)
    requires At(s, i, t) && end == i + |t| && ValidNumber(t)
    requires forall k :: 0 <= k < |t| ==> InRun(t[k] as int, Digits)
    requires !InRun(CodeAt(s, end), Digits)
    ensures CodeAt(s, i) != ' ' as int && Primary(s, i) == Ok(Parsed(Num(t), end))
  {
    assert s[i + 0] == t[0];
    EatMiss(s, i, '(');
    RunEndAt(s, i, t, Digits);
    assert s[i..end] == t;
  }

  /** Every function name is a non-empty run of lower-case letters. */
  lemma FuncNameLetters(f: Func)
    ensures |FuncName(f)| > 0 && forall m :: 0 <= m < |FuncName(f)| ==> InRun(FuncName(f)[m] as int, Letters)
  {
  }

  /** A run of letters, then the argument factor: the name decides between a call and an error. */
  lemma PrimaryNamed(s: string, i: nat, name: string, k: nat, x: Expr, end: nat)
    requires |name| > 0 && (forall m :: 0 <= m < |name| ==> InRun(name[m] as int, Letters))
    requires At(s, i, name) && k == i + |name| && !InRun(CodeAt(s, k), Letters)
    requires Factor(s, k) == Ok(Parsed(x, end))
    ensures CodeAt(s, i) != ' ' as int
    ensures Primary(s, i) == match FuncNamed(name)
      case None => Err(UnknownFunction(name))
      case Some(fn) => Ok(Parsed(Call(fn, x), end))
  {
    assert CodeAt(s, i) == name[0] as int by {
      assert s[i + 0] == name[0];
    }
    EatMiss(s, i, '(');
    assert RunEnd(s, i, Letters) == k by {
      RunEndAt(s, i, name, Letters);
    }
    assert s[i..k] == name;
  }

  /** A function name, then its argument factor. */
  lemma PrimaryCall(s: string, i: nat, f: Func, k: nat, x: Expr, end: nat)
    requires At(s, i, FuncName(f)) && k == i + |FuncName(f)| && !InRun(CodeAt(s, k), Letters)
    requires Factor(s, k) == Ok(Parsed(x, end))
    ensures CodeAt(s, i) != ' ' as int && Primary(s, i) == Ok(Parsed(Call(f, x), end))
  {
    FuncNameLetters(f);
    FuncNameNamed(f);
    PrimaryNamed(s, i, FuncName(f), k, x, end);
  }

  /** Any other run of letters: the factor after it is parsed, then the name is refused. */
  lemma PrimaryUnknown(s: string, i: nat, name: string, k: nat, x: Expr, end: nat)
    requires |name| > 0 && (forall m :: 0 <= m < |name| ==> InRun(name[m] as int, Letters))
    requires At(s, i, name) && k == i + |name| && !InRun(CodeAt(s, k), Letters)
    requires FuncNamed(name) == None && Factor(s, k) == Ok(Parsed(x, end))
    ensures CodeAt(s, i) != ' ' as int && Primary(s, i) == Err(UnknownFunction(name))
  {
    PrimaryNamed(s, i, name, k, x, end);
  }

  /** A factor, then the `*`/`/` loop from where it ends. */
  lemma TermStart(s: string, i: nat, x: Expr, j: nat)
    requires i <= |s| && Factor(s, i) == Ok(Parsed(x, j))
    ensures Term(s, i) == TermTail(s, j, x)
  {
  }

  /** A term, then the `+`/`-` loop from where it ends. */
  lemma ExpressionStart(s: string, i: nat, x: Expr, j: nat)
    requires i <= |s| && Term(s, i) == Ok(Parsed(x, j))
    ensures Expression(s, i) == ExpressionTail(s, j, x)
  {
  }

  /** `x + term` and `x - term`: one turn of the expression loop, which goes on with the sum so far. */
  lemma ExpressionTailStep(s: string, j: nat, k: nat, x: Expr, y: Expr, end: nat)
    requires j <= |s| && (CodeAt(s, j) == '+' as int || CodeAt(s, j) == '-' as int) && k == j + 1
    requires Term(s, k) == Ok(Parsed(y, end))
    ensures ExpressionTail(s, j, x)
         == ExpressionTail(s, end, if CodeAt(s, j) == '+' as int then Add(x, y) else Sub(x, y))
  {
    if CodeAt(s, j) == '+' as int {
      EatHit(s, j, '+', k);
    } else {
      EatMiss(s, j, '+');
      EatHit(s, j, '-', k);
    }
  }

  /** `x * factor` and `x / factor`: one turn of the term loop, which goes on with the product so far. */
  lemma TermTailStep(s: string, j: nat, k: nat, x: Expr, y: Expr, end: nat)
    requires j <= |s| && (CodeAt(s, j) == '*' as int || CodeAt(s, j) == '/' as int) && k == j + 1
    requires Factor(s, k) == Ok(Parsed(y, end))
    ensures TermTail(s, j, x)
         == TermTail(s, end, if CodeAt(s, j) == '*' as int then Mul(x, y) else Div(x, y))
  {
    if CodeAt(s, j) == '*' as int {
      EatHit(s, j, '*', k);
    } else {
      EatMiss(s, j, '*');
      EatHit(s, j, '/', k);
    }
  }

  /** `parse()` succeeds exactly with an expression that reaches the end of the input. */
  lemma ParseAllWhole(s: string, x: Expr)
    requires Expression(s, 0) == Ok(Parsed(x, |s|))
    ensures ParseAll(s) == Ok(x)
  {
  }

  /** A factor that spans the whole input is what `parse()` returns. */
  lemma ParseAllOfFactor(s: string, x: Expr)
    requires Factor(s, 0) == Ok(Parsed(x, |s|))
    ensures ParseAll(s) == Ok(x)
  {
    assert Term(s, 0) == Ok(Parsed(x, |s|)) by {
      TermOfFactor(s, 0, x, |s|);
    }
    ExpressionOfTerm(s, 0, x, |s|);
  }

  /** A primary that spans the whole input and starts with no space or sign is what `parse()` returns. */
  lemma ParseAllOfPrimary(s: string, x: Expr)
    requires CodeAt(s, 0) != ' ' as int && CodeAt(s, 0) != '+' as int && CodeAt(s, 0) != '-' as int
    requires Primary(s, 0) == Ok(Parsed(x, |s|))
    ensures ParseAll(s) == Ok(x)
  {
    FactorOfPrimary(s, 0, x, |s|);
    ParseAllOfFactor(s, x);
  }

  /** A factor after a space: `eat` skips the space, then no sign follows it. */
  lemma FactorAfterSpace(s: string, k: nat, x: Expr, end: nat)
    requires k < |s| && s[k] == ' '
    requires CodeAt(s, k + 1) != ' ' as int && CodeAt(s, k + 1) != '+' as int && CodeAt(s, k + 1) != '-' as int
    requires Primary(s, k + 1) == Ok(Parsed(x, end)) && FactorStop(CodeAt(s, end))
    ensures Factor(s, k) == Ok(Parsed(x, end))
  {
    assert SkipSpaces(s, k) == k + 1;
    assert EatAt(s, k, '+') == (false, k + 1);
    EatMiss(s, k + 1, '-');
    EatMiss(s, end, '^');
  }

  /** `x * y` or `x / y` read as a whole term. */
  lemma TermBinary(s: string, i: nat, x: Expr, op: char, j: nat, k: nat, y: Expr, end: nat)
    requires i <= |s| && Factor(s, i) == Ok(Parsed(x, j)) && MultiplicativeOp(op) && CodeAt(s, j) == op as int
    requires k == j + 1 && Factor(s, k) == Ok(Parsed(y, end)) && TermStop(CodeAt(s, end))
    ensures Term(s, i) == Ok(Parsed(ProductOf(op, x, y), end))
  {
    TermStart(s, i, x, j);
    TermTailStep(s, j, k, x, y, end);
    TermTailStops(s, end, ProductOf(op, x, y));
  }

  /** `x + y` or `x - y` read as a whole expression. */
  lemma ExpressionBinary(s: string, i: nat, x: Expr, op: char, j: nat, k: nat, y: Expr, end: nat)
    requires i <= |s| && Term(s, i) == Ok(Parsed(x, j)) && AdditiveOp(op) && CodeAt(s, j) == op as int
    requires k == j + 1 && Term(s, k) == Ok(Parsed(y, end)) && ExpressionStop(CodeAt(s, end))
    ensures Expression(s, i) == Ok(Parsed(SumOf(op, x, y), end))
  {
    ExpressionStart(s, i, x, j);
    ExpressionTailStep(s, j, k, x, y, end);
    ExpressionTailStops(s, end, SumOf(op, x, y));
  }

  /** The last turn of the `+`/`-` loop: `x op y` ends the expression. */
  lemma ExpressionTailLast(s: string, j: nat, k: nat, x: Expr, op: char, y: Expr, end: nat)
    requires j <= |s| && AdditiveOp(op) && CodeAt(s, j) == op as int && k == j + 1
    requires Term(s, k) == Ok(Parsed(y, end)) && ExpressionStop(CodeAt(s, end))
    ensures ExpressionTail(s, j, x) == Ok(Parsed(SumOf(op, x, y), end))
  {
    ExpressionTailStep(s, j, k, x, y, end);
    ExpressionTailStops(s, end, SumOf(op, x, y));
  }

  /** The last turn of the `*`/`/` loop: `x op y` ends the term. */
  lemma TermTailLast(s: string, j: nat, k: nat, x: Expr, op: char, y: Expr, end: nat)
    requires j <= |s| && MultiplicativeOp(op) && CodeAt(s, j) == op as int && k == j + 1
    requires Factor(s, k) == Ok(Parsed(y, end)) && TermStop(CodeAt(s, end))
    ensures TermTail(s, j, x) == Ok(Parsed(ProductOf(op, x, y), end))
  {
    TermTailStep(s, j, k, x, y, end);
    TermTailStops(s, end, ProductOf(op, x, y));
  }

  /** Two turns of the `+`/`-` loop: `x op1 y op2 z` groups as `(x op1 y) op2 z`. */
  lemma ExpressionTailTwo(s: string, j1: nat, k1: nat, x: Expr, op1: char, y: Expr,
                          j2: nat, k2: nat, op2: char, z: Expr, end: nat)
    requires j1 <= |s| && AdditiveOp(op1) && CodeAt(s, j1) == op1 as int && k1 == j1 + 1
    requires Term(s, k1) == Ok(Parsed(y, j2))
    requires AdditiveOp(op2) && CodeAt(s, j2) == op2 as int && k2 == j2 + 1
    requires Term(s, k2) == Ok(Parsed(z, end)) && ExpressionStop(CodeAt(s, end))
    ensures ExpressionTail(s, j1, x) == Ok(Parsed(SumOf(op2, SumOf(op1, x, y), z), end))
  {
    ExpressionTailStep(s, j1, k1, x, y, j2);
    ExpressionTailLast(s, j2, k2, SumOf(op1, x, y), op2, z, end);
  }

  /** Two turns of the `*`/`/` loop: `x op1 y op2 z` groups as `(x op1 y) op2 z`. */
  lemma TermTailTwo(s: string, j1: nat, k1: nat, x: Expr, op1: char, y: Expr,
                    j2: nat, k2: nat, op2: char, z: Expr, end: nat)
    requires j1 <= |s| && MultiplicativeOp(op1) && CodeAt(s, j1) == op1 as int && k1 == j1 + 1
    requires Factor(s, k1) == Ok(Parsed(y, j2))
    requires MultiplicativeOp(op2) && CodeAt(s, j2) == op2 as int && k2 == j2 + 1
    requires Factor(s, k2) == Ok(Parsed(z, end)) && TermStop(CodeAt(s, end))
    ensures TermTail(s, j1, x) == Ok(Parsed(ProductOf(op2, ProductOf(op1, x, y), z), end))
  {
    TermTailStep(s, j1, k1, x, y, j2);
    TermTailLast(s, j2, k2, ProductOf(op1, x, y), op2, z, end);
  }

  // ---------------------------------------------------------------------------
  // The parser reads printed trees back

  /** A character that may follow a printed operand: an operator, `)` or the end. */
  predicate Follows(c: int) {
    c == -1 || c == ')' as int || c == '+' as int || c == '-' as int
    || c == '*' as int || c == '/' as int || c == '^' as int
  }

  /** What may follow a whole printed term: `)`, `+`, `-` or the end. */
  predicate TermFollows(c: int) {
    c == -1 || c == ')' as int || c == '+' as int || c == '-' as int
  }

  /**
   * The inside of a parenthesised printed operation, from `i + 1`, is one
   * expression ending at the `)` at position `end`.
   */
  lemma {:induction false} InsidePrinted(e: Expr, s: string, i: nat, end: nat)
    requires WellFormed(e) && !e.Num? && At(s, i, Print(e)) && end + 1 == i + |Print(e)|
    ensures Expression(s, i + 1) == Ok(Parsed(e, end)) && CodeAt(s, end) == ')' as int
    decreases e, 1
  {
    match e
    case Neg(x) =>
      assert Print(e) == "(" + "-" + Print(x) + ")";
      NegInside(e, x, s, i, end);
    case Add(l, r) => SumInside(e, l, '+', r, s, i, end);
    case Sub(l, r) => SumInside(e, l, '-', r, s, i, end);
    case Mul(l, r) => ProductInside(e, l, '*', r, s, i, end);
    case Div(l, r) => ProductInside(e, l, '/', r, s, i, end);
    case Pow(l, r) => PowInside(e, l, r, s, i, end);
    case Call(f, x) => CallInside(e, f, x, s, i, end);
  }

  lemma {:induction false} NegInside(e: Expr, x: Expr, s: string, i: nat, end: nat)
    requires e == Neg(x) && WellFormed(x) && At(s, i, "(" + "-" + Print(x) + ")")
    requires end == i + 2 + |Print(x)|
    ensures Expression(s, i + 1) == Ok(Parsed(e, end)) && CodeAt(s, end) == ')' as int
    decreases e, 0
  {
    var (i1, i2) := (i + 1, i + 2);
    AtWrapped(s, i, "-", Print(x), i2, end);
    AtFirst(s, i1, "-");
    FactorPrinted(x, s, i2, end);
    FactorNeg(s, i1, i2, x, end);
    TermOfFactor(s, i1, e, end);
    ExpressionOfTerm(s, i1, e, end);
  }

  lemma {:induction false} SumInside(e: Expr, l: Expr, op: char, r: Expr, s: string, i: nat, end: nat)
    requires e == (if op == '+' then Add(l, r) else Sub(l, r)) && (op == '+' || op == '-')
    requires WellFormed(l) && WellFormed(r) && At(s, i, Binary(Print(l), op, Print(r)))
    requires end == i + |Print(l)| + |Print(r)| + 2
    ensures Expression(s, i + 1) == Ok(Parsed(e, end)) && CodeAt(s, end) == ')' as int
    decreases e, 0
  {
    var i1 := i + 1;
    var j := i1 + |Print(l)|;
    var k := j + 1;
    AtBinary(s, i, Print(l), op, Print(r), j, end);
    assert Term(s, i1) == Ok(Parsed(l, j)) by {
      FactorPrinted(l, s, i1, j);
      TermOfFactor(s, i1, l, j);
    }
    assert Term(s, k) == Ok(Parsed(r, end)) by {
      TermPrinted(r, s, k, end);
    }
    ExpressionStart(s, i1, l, j);
    ExpressionTailStep(s, j, k, l, r, end);
    ExpressionTailStops(s, end, e);
  }

  lemma {:induction false} ProductInside(e: Expr, l: Expr, op: char, r: Expr, s: string, i: nat, end: nat)
    requires e == (if op == '*' then Mul(l, r) else Div(l, r)) && (op == '*' || op == '/')
    requires WellFormed(l) && WellFormed(r) && At(s, i, Binary(Print(l), op, Print(r)))
    requires end == i + |Print(l)| + |Print(r)| + 2
    ensures Expression(s, i + 1) == Ok(Parsed(e, end)) && CodeAt(s, end) == ')' as int
    decreases e, 0
  {
    var i1 := i + 1;
    var j := i1 + |Print(l)|;
    var k := j + 1;
    AtBinary(s, i, Print(l), op, Print(r), j, end);
    assert Factor(s, i1) == Ok(Parsed(l, j)) by {
      FactorPrinted(l, s, i1, j);
    }
    assert Factor(s, k) == Ok(Parsed(r, end)) by {
      FactorPrinted(r, s, k, end);
    }
    TermStart(s, i1, l, j);
    TermTailStep(s, j, k, l, r, end);
    TermTailStops(s, end, e);
    ExpressionOfTerm(s, i1, e, end);
  }

  lemma {:induction false} PowInside(e: Expr, l: Expr, r: Expr, s: string, i: nat, end: nat)
    requires e == Pow(l, r) && WellFormed(l) && WellFormed(r) && At(s, i, Binary(Print(l), '^', Print(r)))
    requires end == i + |Print(l)| + |Print(r)| + 2
    ensures Expression(s, i + 1) == Ok(Parsed(e, end)) && CodeAt(s, end) == ')' as int
    decreases e, 0
  {
    var i1 := i + 1;
    var j := i1 + |Print(l)|;
    var k := j + 1;
    AtBinary(s, i, Print(l), '^', Print(r), j, end);
    assert Factor(s, i1) == Ok(Parsed(e, end)) by {
      PrimaryPrinted(l, s, i1, j);
      FactorPrinted(r, s, k, end);
      FactorPow(s, i1, l, j, k, r, end);
    }
    TermOfFactor(s, i1, e, end);
    ExpressionOfTerm(s, i1, e, end);
  }

  lemma {:induction false} CallInside(e: Expr, f: Func, x: Expr, s: string, i: nat, end: nat)
    requires e == Call(f, x) && WellFormed(x) && At(s, i, "(" + FuncName(f) + Print(x) + ")")
    requires end == i + 1 + |FuncName(f)| + |Print(x)|
    ensures Expression(s, i + 1) == Ok(Parsed(e, end)) && CodeAt(s, end) == ')' as int
    decreases e, 0
  {
    var i1 := i + 1;
    var k := i1 + |FuncName(f)|;
    AtWrapped(s, i, FuncName(f), Print(x), k, end);
    AtFirst(s, i1, FuncName(f));
    AtFirst(s, k, Print(x));
    FactorPrinted(x, s, k, end);
    PrimaryCall(s, i1, f, k, x, end);
    FactorOfPrimary(s, i1, e, end);
    TermOfFactor(s, i1, e, end);
    ExpressionOfTerm(s, i1, e, end);
  }

  /** A printed operation starts with its opening parenthesis. */
  lemma PrintOpens(e: Expr)
    requires !e.Num?
    ensures |Print(e)| > 0 && Print(e)[0] == '('
  {
  }

  /** A printed operation read as a primary: its parentheses enclose one expression. */
  lemma {:induction false} ParenthesisedPrinted(e: Expr, s: string, i: nat, end: nat)
    requires WellFormed(e) && !e.Num? && At(s, i, Print(e)) && end == i + |Print(e)|
    ensures CodeAt(s, i) == '(' as int && Primary(s, i) == Ok(Parsed(e, end))
    decreases e, 2
  {
    assert CodeAt(s, i) == '(' as int by {
      PrintOpens(e);
      AtFirst(s, i, Print(e));
    }
    InsidePrinted(e, s, i, end - 1);
    PrimaryParenthesised(s, i, i + 1, e, end - 1, end);
  }

  /** A printed tree read as a primary, whatever follows it except a digit or a dot. */
  lemma {:induction false} PrimaryPrinted(e: Expr, s: string, i: nat, end: nat)
    requires WellFormed(e) && At(s, i, Print(e)) && end == i + |Print(e)| && !InRun(CodeAt(s, end), Digits)
    ensures CodeAt(s, i) != ' ' as int && CodeAt(s, i) != '+' as int && CodeAt(s, i) != '-' as int
    ensures Primary(s, i) == Ok(Parsed(e, end))
    decreases e, 3
  {
    if e.Num? {
      assert Print(e) == e.text;
      PrimaryNumber(s, i, e.text, end);
      AtFirst(s, i, e.text);
    } else {
      ParenthesisedPrinted(e, s, i, end);
    }
  }

  /** A printed tree read as a factor, when no `^` follows it. */
  lemma {:induction false} FactorPrinted(e: Expr, s: string, i: nat, end: nat)
    requires WellFormed(e) && At(s, i, Print(e)) && end == i + |Print(e)|
    requires Follows(CodeAt(s, end)) && CodeAt(s, end) != '^' as int
    ensures Factor(s, i) == Ok(Parsed(e, end))
    decreases e, 4
  {
    PrimaryPrinted(e, s, i, end);
    FactorOfPrimary(s, i, e, end);
  }

  /** A printed tree read as a term, when `)`, `+`, `-` or the end follows it. */
  lemma {:induction false} TermPrinted(e: Expr, s: string, i: nat, end: nat)
    requires WellFormed(e) && At(s, i, Print(e)) && end == i + |Print(e)| && TermFollows(CodeAt(s, end))
    ensures Term(s, i) == Ok(Parsed(e, end))
    decreases e, 5
  {
    FactorPrinted(e, s, i, end);
    TermOfFactor(s, i, e, end);
  }

  /** Reading a printed tree gives the tree back: the parser loses nothing and invents nothing. */
  lemma RoundTrip(e: Expr)
    requires WellFormed(e)
    ensures ParseAll(Print(e)) == Ok(e)
  {
    var s := Print(e);
    assert At(s, 0, s);
    TermPrinted(e, s, 0, |s|);
    ExpressionOfTerm(s, 0, e, |s|);
  }

  // ---------------------------------------------------------------------------
  // Precedence and associativity of bare operators

  predicate AdditiveOp(op: char) {
    op == '+' || op == '-'
  }

  predicate MultiplicativeOp(op: char) {
    op == '*' || op == '/'
  }

  function SumOf(op: char, x: Expr, y: Expr): Expr {
    if op == '+' then Add(x, y) else Sub(x, y)
  }

  function ProductOf(op: char, x: Expr, y: Expr): Expr {
    if op == '*' then Mul(x, y) else Div(x, y)
  }

  /** Where the three operands and two operators of `a op1 b op2 c` sit. */
  lemma AtThree(s: string, a: string, op1: char, b: string, op2: char, c: string, j1: nat, k1: nat, j2: nat, k2: nat)
    requires s == a + [op1] + b + [op2] + c
    requires j1 == |a| && k1 == j1 + 1 && j2 == k1 + |b| && k2 == j2 + 1
    ensures At(s, 0, a) && CodeAt(s, j1) == op1 as int && At(s, k1, b)
    ensures CodeAt(s, j2) == op2 as int && At(s, k2, c) && |s| == k2 + |c|
  {
    assert At(s, 0, s);
    AtSplit(s, 0, a + [op1] + b + [op2], c);
    AtSplit(s, 0, a + [op1] + b, [op2]);
    AtSplit(s, 0, a + [op1], b);
    AtSplit(s, 0, a, [op1]);
    AtFirst(s, j1, [op1]);
    AtFirst(s, j2, [op2]);
  }

  /** The layout `AtThree` establishes, for a string whose construction is out of sight. */
  predicate ThreeOperands(s: string, a: Expr, op1: char, b: Expr, op2: char, c: Expr, j1: nat, k1: nat, j2: nat, k2: nat) {
    At(s, 0, Print(a)) && j1 == |Print(a)| && CodeAt(s, j1) == op1 as int && k1 == j1 + 1
    && At(s, k1, Print(b)) && j2 == k1 + |Print(b)| && CodeAt(s, j2) == op2 as int && k2 == j2 + 1
    && At(s, k2, Print(c)) && |s| == k2 + |Print(c)|
  }

  lemma ThreeOperandsOf(a: Expr, op1: char, b: Expr, op2: char, c: Expr)
    returns (s: string, j1: nat, k1: nat, j2: nat, k2: nat)
    ensures s == Print(a) + [op1] + Print(b) + [op2] + Print(c)
    ensures ThreeOperands(s, a, op1, b, op2, c, j1, k1, j2, k2)
  {
    s := Print(a) + [op1] + Print(b) + [op2] + Print(c);
    j1 := |Print(a)|;
    k1 := j1 + 1;
    j2 := k1 + |Print(b)|;
    k2 := j2 + 1;
    AtThree(s, Print(a), op1, Print(b), op2, Print(c), j1, k1, j2, k2);
  }

  /** `*` and `/` bind tighter than `+` and `-`: `a + b * c` is `a + (b * c)`. */
  lemma ProductBindsTighter(a: Expr, op1: char, b: Expr, op2: char, c: Expr)
    requires WellFormed(a) && WellFormed(b) && WellFormed(c)
    requires AdditiveOp(op1) && MultiplicativeOp(op2)
    ensures ParseAll(Print(a) + [op1] + Print(b) + [op2] + Print(c)) == Ok(SumOf(op1, a, ProductOf(op2, b, c)))
  {
    var s, j1, k1, j2, k2 := ThreeOperandsOf(a, op1, b, op2, c);
    SumOfProduct(s, a, op1, b, op2, c, j1, k1, j2, k2);
  }

  lemma SumOfProduct(s: string, a: Expr, op1: char, b: Expr, op2: char, c: Expr, j1: nat, k1: nat, j2: nat, k2: nat)
    requires WellFormed(a) && WellFormed(b) && WellFormed(c)
    requires AdditiveOp(op1) && MultiplicativeOp(op2) && ThreeOperands(s, a, op1, b, op2, c, j1, k1, j2, k2)
    ensures ParseAll(s) == Ok(SumOf(op1, a, ProductOf(op2, b, c)))
  {
    var end := |s|;
    FactorPrinted(b, s, k1, j2);
    FactorPrinted(c, s, k2, end);
    TermBinary(s, k1, b, op2, j2, k2, c, end);
    TermPrinted(a, s, 0, j1);
    ExpressionBinary(s, 0, a, op1, j1, k1, ProductOf(op2, b, c), end);
  }

  /** `a * b + c` is `(a * b) + c`. */
  lemma ProductBindsTighterOnTheLeft(a: Expr, op1: char, b: Expr, op2: char, c: Expr)
    requires WellFormed(a) && WellFormed(b) && WellFormed(c)
    requires MultiplicativeOp(op1) && AdditiveOp(op2)
    ensures ParseAll(Print(a) + [op1] + Print(b) + [op2] + Print(c)) == Ok(SumOf(op2, ProductOf(op1, a, b), c))
  {
    var s, j1, k1, j2, k2 := ThreeOperandsOf(a, op1, b, op2, c);
    ProductThenSum(s, a, op1, b, op2, c, j1, k1, j2, k2);
  }

  lemma ProductThenSum(s: string, a: Expr, op1: char, b: Expr, op2: char, c: Expr, j1: nat, k1: nat, j2: nat, k2: nat)
    requires WellFormed(a) && WellFormed(b) && WellFormed(c)
    requires MultiplicativeOp(op1) && AdditiveOp(op2) && ThreeOperands(s, a, op1, b, op2, c, j1, k1, j2, k2)
    ensures ParseAll(s) == Ok(SumOf(op2, ProductOf(op1, a, b), c))
  {
    var end := |s|;
    FactorPrinted(a, s, 0, j1);
    FactorPrinted(b, s, k1, j2);
    TermBinary(s, 0, a, op1, j1, k1, b, j2);
    TermPrinted(c, s, k2, end);
    ExpressionBinary(s, 0, ProductOf(op1, a, b), op2, j2, k2, c, end);
  }

  /** `+` and `-` group to the left: `a - b - c` is `(a - b) - c`. */
  lemma SumsGroupLeft(a: Expr, op1: char, b: Expr, op2: char, c: Expr)
    requires WellFormed(a) && WellFormed(b) && WellFormed(c)
    requires AdditiveOp(op1) && AdditiveOp(op2)
    ensures ParseAll(Print(a) + [op1] + Print(b) + [op2] + Print(c)) == Ok(SumOf(op2, SumOf(op1, a, b), c))
  {
    var s, j1, k1, j2, k2 := ThreeOperandsOf(a, op1, b, op2, c);
    SumThenSum(s, a, op1, b, op2, c, j1, k1, j2, k2);
  }

  lemma SumThenSum(s: string, a: Expr, op1: char, b: Expr, op2: char, c: Expr, j1: nat, k1: nat, j2: nat, k2: nat)
    requires WellFormed(a) && WellFormed(b) && WellFormed(c)
    requires AdditiveOp(op1) && AdditiveOp(op2) && ThreeOperands(s, a, op1, b, op2, c, j1, k1, j2, k2)
    ensures ParseAll(s) == Ok(SumOf(op2, SumOf(op1, a, b), c))
  {
    var end := |s|;
    TermPrinted(a, s, 0, j1);
    TermPrinted(b, s, k1, j2);
    TermPrinted(c, s, k2, end);
    ExpressionStart(s, 0, a, j1);
    ExpressionTailTwo(s, j1, k1, a, op1, b, j2, k2, op2, c, end);
  }

  /** `*` and `/` group to the left: `a / b / c` is `(a / b) / c`. */
  lemma ProductsGroupLeft(a: Expr, op1: char, b: Expr, op2: char, c: Expr)
    requires WellFormed(a) && WellFormed(b) && WellFormed(c)
    requires MultiplicativeOp(op1) && MultiplicativeOp(op2)
    ensures ParseAll(Print(a) + [op1] + Print(b) + [op2] + Print(c)) == Ok(ProductOf(op2, ProductOf(op1, a, b), c))
  {
    var s, j1, k1, j2, k2 := ThreeOperandsOf(a, op1, b, op2, c);
    ProductThenProduct(s, a, op1, b, op2, c, j1, k1, j2, k2);
  }

  lemma ProductThenProduct(s: string, a: Expr, op1: char, b: Expr, op2: char, c: Expr, j1: nat, k1: nat, j2: nat, k2: nat)
    requires WellFormed(a) && WellFormed(b) && WellFormed(c)
    requires MultiplicativeOp(op1) && MultiplicativeOp(op2) && ThreeOperands(s, a, op1, b, op2, c, j1, k1, j2, k2)
    ensures ParseAll(s) == Ok(ProductOf(op2, ProductOf(op1, a, b), c))
  {
    var end := |s|;
    FactorPrinted(a, s, 0, j1);
    FactorPrinted(b, s, k1, j2);
    FactorPrinted(c, s, k2, end);
    TermStart(s, 0, a, j1);
    TermTailTwo(s, j1, k1, a, op1, b, j2, k2, op2, c, end);
    ExpressionOfTerm(s, 0, ProductOf(op2, ProductOf(op1, a, b), c), end);
  }

  /** `^` groups to the right: `a ^ b ^ c` is `a ^ (b ^ c)`. */
  lemma PowerGroupsRight(a: Expr, b: Expr, c: Expr)
    requires WellFormed(a) && WellFormed(b) && WellFormed(c)
    ensures ParseAll(Print(a) + "^" + Print(b) + "^" + Print(c)) == Ok(Pow(a, Pow(b, c)))
  {
    var s := Print(a) + "^" + Print(b) + "^" + Print(c);
    var j1 := |Print(a)|;
    var k1 := j1 + 1;
    var j2 := k1 + |Print(b)|;
    var k2 := j2 + 1;
    var end := |s|;
    AtThree(s, Print(a), '^', Print(b), '^', Print(c), j1, k1, j2, k2);
    PrimaryPrinted(a, s, 0, j1);
    PrimaryPrinted(b, s, k1, j2);
    FactorPrinted(c, s, k2, end);
    FactorPow(s, k1, b, j2, k2, c, end);
    FactorPow(s, 0, a, j1, k1, Pow(b, c), end);
    ParseAllOfFactor(s, Pow(a, Pow(b, c)));
  }

  /** Where the sign, the base, the `^` and the exponent of `-base^exponent` sit. */
  lemma AtSignPower(s: string, base: string, exponent: string, j: nat, m: nat)
    requires s == "-" + base + "^" + exponent && j == 1 + |base| && m == j + 1
    ensures CodeAt(s, 0) == '-' as int && At(s, 1, base) && CodeAt(s, j) == '^' as int && At(s, m, exponent)
    ensures m + |exponent| == |s|
  {
    assert At(s, 0, s);
    AtSplit(s, 0, "-" + base + "^", exponent);
    AtSplit(s, 0, "-" + base, "^");
    AtSplit(s, 0, "-", base);
    AtFirst(s, 0, "-");
    AtFirst(s, j, "^");
  }

  /** Unary minus applies to the whole power after it: `-a ^ b` is `-(a ^ b)`. */
  lemma MinusAppliesToPower(a: Expr, b: Expr)
    requires WellFormed(a) && WellFormed(b)
    ensures ParseAll("-" + Print(a) + "^" + Print(b)) == Ok(Neg(Pow(a, b)))
  {
    var s := "-" + Print(a) + "^" + Print(b);
    var j := 1 + |Print(a)|;
    var m := j + 1;
    AtSignPower(s, Print(a), Print(b), j, m);
    NegatedPowerAt(s, a, b, j, m);
  }

  lemma NegatedPowerAt(s: string, a: Expr, b: Expr, j: nat, m: nat)
    requires WellFormed(a) && WellFormed(b)
    requires CodeAt(s, 0) == '-' as int && At(s, 1, Print(a)) && j == 1 + |Print(a)| && CodeAt(s, j) == '^' as int
    requires m == j + 1 && At(s, m, Print(b)) && m + |Print(b)| == |s|
    ensures ParseAll(s) == Ok(Neg(Pow(a, b)))
  {
    var end := |s|;
    PrimaryPrinted(a, s, 1, j);
    FactorPrinted(b, s, m, end);
    FactorPow(s, 1, a, j, m, b, end);
    FactorNeg(s, 0, 1, Pow(a, b), end);
    TermOfFactor(s, 0, Neg(Pow(a, b)), end);
    ExpressionOfTerm(s, 0, Neg(Pow(a, b)), end);
  }

  /** Where the name, the base, the `^` and the exponent of `name base^exponent` sit. */
  lemma AtNamePower(s: string, name: string, base: string, exponent: string, k: nat, j: nat, m: nat)
    requires s == name + base + "^" + exponent && k == |name| && j == k + |base| && m == j + 1
    ensures At(s, 0, name) && At(s, k, base) && CodeAt(s, j) == '^' as int && At(s, m, exponent)
    ensures m + |exponent| == |s|
  {
    assert At(s, 0, s);
    AtSplit(s, 0, name + base + "^", exponent);
    AtSplit(s, 0, name + base, "^");
    AtSplit(s, 0, name, base);
    AtFirst(s, j, "^");
  }

  /** In `name a^b`, the factor after the name is the whole power `a^b`. */
  lemma PowerArgument(s: string, name: string, a: Expr, b: Expr, k: nat)
    requires WellFormed(a) && WellFormed(b) && s == name + Print(a) + "^" + Print(b) && k == |name|
    ensures At(s, 0, name) && k < |s| && !InRun(CodeAt(s, k), Letters)
    ensures Factor(s, k) == Ok(Parsed(Pow(a, b), |s|))
  {
    var j := k + |Print(a)|;
    var m := j + 1;
    AtNamePower(s, name, Print(a), Print(b), k, j, m);
    AtFirst(s, k, Print(a));
    PrimaryPrinted(a, s, k, j);
    FactorPrinted(b, s, m, |s|);
    FactorPow(s, k, a, j, m, b, |s|);
  }

  /** A function's argument is a whole factor, so it takes a following power with it: `sqrt a ^ b` is `sqrt(a ^ b)`. */
  lemma FunctionTakesPower(f: Func, a: Expr, b: Expr)
    requires WellFormed(a) && WellFormed(b)
    ensures ParseAll(FuncName(f) + Print(a) + "^" + Print(b)) == Ok(Call(f, Pow(a, b)))
  {
    var name := FuncName(f);
    var s := name + Print(a) + "^" + Print(b);
    var k := |name|;
    PowerArgument(s, name, a, b, k);
    assert CodeAt(s, 0) == name[0] as int by {
      FuncNameLetters(f);
      AtFirst(s, 0, name);
    }
    PrimaryCall(s, 0, f, k, Pow(a, b), |s|);
    ParseAllOfPrimary(s, Call(f, Pow(a, b)));
  }

  // ---------------------------------------------------------------------------
  // Function calls, unbalanced parentheses and rejected input

  /** A parenthesised printed tree that ends the input, read as a factor. */
  lemma ArgumentFactor(s: string, k: nat, e: Expr, j: nat)
    requires WellFormed(e) && k < |s| && s[k] == '(' && At(s, k + 1, Print(e))
    requires j == k + 1 + |Print(e)| && CodeAt(s, j) == ')' as int && j + 1 == |s|
    ensures Factor(s, k) == Ok(Parsed(e, |s|))
  {
    var k1 := k + 1;
    var end := j + 1;
    assert Term(s, k1) == Ok(Parsed(e, j)) by {
      TermPrinted(e, s, k1, j);
    }
    ExpressionOfTerm(s, k1, e, j);
    assert CodeAt(s, k) == '(' as int;
    PrimaryParenthesised(s, k, k1, e, j, end);
    assert CodeAt(s, end) == -1;
    FactorOfPrimary(s, k, e, end);
  }

  /** Where the name, the parentheses and the argument of `name(arg)` sit. */
  lemma AtCall(s: string, name: string, arg: string, k: nat, j: nat)
    requires s == name + "(" + arg + ")" && k == |name| && j == k + 1 + |arg|
    ensures At(s, 0, name) && k < |s| && s[k] == '(' && At(s, k + 1, arg)
    ensures CodeAt(s, j) == ')' as int && j + 1 == |s|
  {
    assert At(s, 0, s);
    AtSplit(s, 0, name + "(" + arg, ")");
    AtSplit(s, 0, name + "(", arg);
    AtSplit(s, 0, name, "(");
    AtFirst(s, k, "(");
    AtFirst(s, j, ")");
  }

  /** `sqrt(16)`, `sin(30)`: a known function name applied to a parenthesised argument. */
  lemma FunctionCall(f: Func, e: Expr)
    requires WellFormed(e)
    ensures ParseAll(FuncName(f) + "(" + Print(e) + ")") == Ok(Call(f, e))
  {
    var name := FuncName(f);
    var s := name + "(" + Print(e) + ")";
    var k := |name|;
    var j := k + 1 + |Print(e)|;
    var end := |s|;
    AtCall(s, name, Print(e), k, j);
    AtFirst(s, 0, name);
    ArgumentFactor(s, k, e, j);
    PrimaryCall(s, 0, f, k, e, end);
    ParseAllOfPrimary(s, Call(f, e));
  }

  /**
   * Any other run of lower-case letters is an unknown function; the argument
   * is parsed first, and the name is rejected afterwards.
   */
  lemma UnknownFunctionRejected(name: string, e: Expr)
    requires |name| > 0 && (forall m :: 0 <= m < |name| ==> InRun(name[m] as int, Letters))
    requires FuncNamed(name) == None && WellFormed(e)
    ensures ParseAll(name + "(" + Print(e) + ")") == Err(UnknownFunction(name))
  {
    var s := name + "(" + Print(e) + ")";
    var k := |name|;
    var j := k + 1 + |Print(e)|;
    AtCall(s, name, Print(e), k, j);
    ArgumentFactor(s, k, e, j);
    PrimaryUnknown(s, 0, name, k, e, |s|);
    PrimaryErrorFailsParse(s);
  }

  /** A run of digits and dots that `toDouble` refuses ("1.2.3", ".") fails the whole parse. */
  lemma MalformedNumberRejected(t: string)
    requires |t| > 0 && (forall m :: 0 <= m < |t| ==> InRun(t[m] as int, Digits)) && !ValidNumber(t)
    ensures ParseAll(t) == Err(MalformedNumber(t))
  {
    assert At(t, 0, t);
    AtFirst(t, 0, t);
    EatMiss(t, 0, '(');
    RunEndAt(t, 0, t, Digits);
    assert t[0..|t|] == t;
    PrimaryErrorFailsParse(t);
  }

  /**
   * A first character that can start no factor (an upper-case letter, `*`,
   * `)`, ...) is unexpected, whatever follows it.
   */
  lemma UnexpectedFirstCharacter(c: char, rest: string)
    requires c != ' ' && c != '+' && c != '-' && c != '('
    requires !InRun(c as int, Digits) && !InRun(c as int, Letters)
    ensures ParseAll([c] + rest) == Err(UnexpectedCharacter(c as int))
  {
    var s := [c] + rest;
    assert CodeAt(s, 0) == c as int;
    EatMiss(s, 0, '(');
    PrimaryErrorFailsParse(s);
  }

  /** The closing parenthesis may be left out: `(` followed by a whole expression parses. */
  lemma UnclosedParenthesisAccepted(e: Expr)
    requires WellFormed(e)
    ensures ParseAll("(" + Print(e)) == Ok(e)
  {
    var s := "(" + Print(e);
    var end := |s|;
    assert At(s, 0, s);
    AtSplit(s, 0, "(", Print(e));
    AtFirst(s, 0, "(");
    TermPrinted(e, s, 1, end);
    ExpressionOfTerm(s, 1, e, end);
    PrimaryUnclosed(s, 0, 1, e, end);
    ParseAllOfPrimary(s, e);
  }

  /** Input left over after the expression, such as an extra `)`, is unexpected. */
  lemma ExtraClosingParenthesisRejected(e: Expr)
    requires WellFormed(e)
    ensures ParseAll(Print(e) + ")") == Err(UnexpectedCharacter(')' as int))
  {
    var s := Print(e) + ")";
    var end := |Print(e)|;
    assert At(s, 0, s);
    AtSplit(s, 0, Print(e), ")");
    AtFirst(s, end, ")");
    TermPrinted(e, s, 0, end);
    ExpressionOfTerm(s, 0, e, end);
  }

  /** Spaces up to the end of the input are all skipped. */
  lemma {:induction false} SkipSpacesToEnd(s: string, i: nat)
    requires i <= |s| && forall k :: i <= k < |s| ==> s[k] == ' '
    ensures SkipSpaces(s, i) == |s|
    decreases |s| - i
  {
    if i < |s| {
      SkipSpacesToEnd(s, i + 1);
    }
  }

  /** A printed tree followed by spaces up to the end of the input, read as a factor. */
  lemma FactorBeforeSpaces(e: Expr, s: string, end: nat)
    requires WellFormed(e) && At(s, 0, Print(e)) && end == |Print(e)| && end < |s|
    requires forall k :: end <= k < |s| ==> s[k] == ' '
    ensures Factor(s, 0) == Ok(Parsed(e, |s|))
  {
    PrimaryPrinted(e, s, 0, end);
    SkipSpacesToEnd(s, end);
    EatMiss(s, 0, '+');
    EatMiss(s, 0, '-');
  }

  /** Trailing spaces are accepted: the last `eat` skips them and reaches the end of the input. */
  lemma TrailingSpacesAccepted(e: Expr, spaces: string)
    requires WellFormed(e) && |spaces| > 0 && forall k :: 0 <= k < |spaces| ==> spaces[k] == ' '
    ensures ParseAll(Print(e) + spaces) == Ok(e)
  {
    var s := Print(e) + spaces;
    var end := |Print(e)|;
    assert At(s, 0, s);
    AtSplit(s, 0, Print(e), spaces);
    assert forall k :: end <= k < |s| ==> s[k] == spaces[k - end];
    FactorBeforeSpaces(e, s, end);
    TermOfFactor(s, 0, e, |s|);
    ExpressionOfTerm(s, 0, e, |s|);
  }

  /** A number, spaces, then another number: the second number is unexpected ("3 4"). */
  lemma SpaceSeparatedNumbersRejected(a: string, b: string)
    requires |a| > 0 && (forall k :: 0 <= k < |a| ==> IsDigit(a[k]))
    requires |b| > 0 && (forall k :: 0 <= k < |b| ==> IsDigit(b[k]))
    ensures ParseAll(a + " " + b) == Err(UnexpectedCharacter(b[0] as int))
  {
    var s := a + " " + b;
    var n := |a|;
    assert At(s, 0, a);
    assert s[n] == ' ' && s[n + 1] == b[0];
    assert Dots(a) == 0 by {
      DigitsDotless(a);
    }
    assert IsDigit(a[0]);
    PrimaryNumber(s, 0, a, n);
    EatMiss(s, 0, '+');
    EatMiss(s, 0, '-');
    EatMiss(s, n + 1, '^');
    assert Factor(s, 0) == Ok(Parsed(Num(a), n + 1));
    TermOfFactor(s, 0, Num(a), n + 1);
    ExpressionOfTerm(s, 0, Num(a), n + 1);
  }

  lemma {:induction false} DigitsDotless(t: string)
    requires forall m :: 0 <= m < |t| ==> IsDigit(t[m])
    ensures Dots(t) == 0
  {
    if t != [] {
      DigitsDotless(t[1..]);
    }
  }

  /** A function name may be followed by spaces before its argument ("sin 30"). */
  lemma SpacedCall(f: Func, a: string)
    requires |a| > 0 && (forall k :: 0 <= k < |a| ==> IsDigit(a[k]))
    ensures ParseAll(FuncName(f) + " " + a) == Ok(Call(f, Num(a)))
  {
    var s := FuncName(f) + " " + a;
    var k := |FuncName(f)|;
    var end := |s|;
    assert At(s, 0, FuncName(f)) && At(s, k + 1, a) && s[k] == ' ' && end == k + 1 + |a|;
    assert Primary(s, k + 1) == Ok(Parsed(Num(a), end)) by {
      DigitsDotless(a);
      PrimaryNumber(s, k + 1, a, end);
    }
    assert CodeAt(s, k + 1) == a[0] as int by {
      AtFirst(s, k + 1, a);
    }
    FactorAfterSpace(s, k, Num(a), end);
    PrimaryCall(s, 0, f, k, Num(a), end);
    assert CodeAt(s, 0) == FuncName(f)[0] as int by {
      FuncNameLetters(f);
      AtFirst(s, 0, FuncName(f));
    }
    ParseAllOfPrimary(s, Call(f, Num(a)));
  }

  /** Unary minus may repeat: `--a` is `-(-a)`. */
  lemma DoubleNegation(a: string)
    requires |a| > 0 && (forall k :: 0 <= k < |a| ==> IsDigit(a[k]))
    ensures ParseAll("--" + a) == Ok(Neg(Neg(Num(a))))
  {
    var s := "--" + a;
    var end := |s|;
    assert At(s, 2, a);
    assert s[0] == '-' && s[1] == '-' && s[2] == a[0];
    DigitsDotless(a);
    assert IsDigit(a[0]);
    PrimaryNumber(s, 2, a, end);
    FactorOfPrimary(s, 2, Num(a), end);
    FactorNeg(s, 1, 2, Num(a), end);
    FactorNeg(s, 0, 1, Neg(Num(a)), end);
    TermOfFactor(s, 0, Neg(Neg(Num(a))), end);
    ExpressionOfTerm(s, 0, Neg(Neg(Num(a))), end);
  }

  // ---------------------------------------------------------------------------
  // What `evaluate` returns

  /** `evaluate` returns the empty string exactly for blank input. */
  lemma EmptyExactlyWhenBlank<R>(str: string, ar: Arith<R>)
    ensures Evaluation(str, ar) == "" <==> IsBlank(str)
  {
  }

  /** A printed tree evaluates to its formatted value. */
  lemma EvaluatesPrinted<R>(e: Expr, ar: Arith<R>)
    requires WellFormed(e)
    ensures Evaluation(Print(e), ar) == FormatResult(Eval(e, ar), ar)
  {
    RoundTrip(e);
    var s := Print(e);
    assert !IsWhitespace(s[0]);
  }
}
