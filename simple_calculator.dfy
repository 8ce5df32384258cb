/**
 * `SimpleCalculator.evaluate`: a single-pass recursive-descent parser and
 * evaluator for arithmetic text.
 *
 * The pure functions below (Expression, ExpressionTail, Term, TermTail, Factor,
 * Primary) are the grammar as the parser object walks it, one position at a
 * time; they build an `Expr` tree so that precedence and associativity can be
 * stated about the result. The class `Parser` is the parser object itself: the
 * mutable `pos`/`ch` cursor, `NextChar`, `Eat` and the mutually recursive
 * `Parse*` methods, which are proved to agree with the grammar functions.
 * The source computes the value while it parses; here the methods build the
 * same tree the grammar functions describe and `Eval` folds it, which gives
 * the same value because no numeric operation can fail.
 *
 * Double arithmetic is not modelled: the numeric type is a type parameter `R`
 * and every operation on it comes from an `Arith<R>` value.
 */
module SimpleCalculator {
  import opened Text
  import opened Wrappers

  /** The functions the parser recognises by name. */
  datatype Func = Sqrt | Sin | Cos | Tan

  /** The tree of an accepted expression; unary plus leaves no node. */
  datatype Expr =
    | Num(text: string)
    | Neg(operand: Expr)
    | Add(left: Expr, right: Expr)
    | Sub(left: Expr, right: Expr)
    | Mul(left: Expr, right: Expr)
    | Div(left: Expr, right: Expr)
    | Pow(base: Expr, exponent: Expr)
    | Call(func: Func, arg: Expr)

  /** Why parsing stopped; all three become the string "Error" at the boundary. */
  datatype Error =
    | UnexpectedCharacter(code: int)
    | UnknownFunction(name: string)
    | MalformedNumber(token: string)

  datatype Result<T> = Ok(value: T) | Err(error: Error)

  /** A parsed piece of input and the cursor position just after it. */
  datatype Parsed = Parsed(expr: Expr, end: nat)

  function FuncName(f: Func): string {
    match f
    case Sqrt => "sqrt"
    case Sin => "sin"
    case Cos => "cos"
    case Tan => "tan"
  }

  /** The `when (func)` dispatch: exactly the four names are known. */
  function FuncNamed(name: string): (r: Option<Func>)
    ensures r.Some? <==> name == "sqrt" || name == "sin" || name == "cos" || name == "tan"
    ensures r.Some? ==> FuncName(r.value) == name
  {
    if name == "sqrt" then Some(Sqrt)
    else if name == "sin" then Some(Sin)
    else if name == "cos" then Some(Cos)
    else if name == "tan" then Some(Tan)
    else None
  }

  // ---------------------------------------------------------------------------
  // The cursor, as pure functions of the input and a position

  /** The character code the cursor holds at position `p`, or -1 past the end. */
  function CodeAt(s: string, p: int): int {
    if 0 <= p < |s| then s[p] as int else -1
  }

  /** Every character from `i` up to `j` is a space (see `SpacesEverywhere`). */
  predicate Spaces(s: string, i: nat, j: nat)
    requires i <= j <= |s|
    decreases j - i
  {
    i == j || (s[i] == ' ' && Spaces(s, i + 1, j))
  }

  /** `Spaces` says exactly that each character in the range is a space. */
  lemma {:induction false} SpacesEverywhere(s: string, i: nat, j: nat)
    requires i <= j <= |s|
    ensures Spaces(s, i, j) <==> forall k :: i <= k < j ==> s[k] == ' '
    decreases j - i
  {
    if i < j {
      SpacesEverywhere(s, i + 1, j);
    }
  }

  /** Where the `while (ch == ' ') nextChar()` loop of `eat` stops. */
  function SkipSpaces(s: string, i: nat): (r: nat)
    requires i <= |s|
    ensures i <= r <= |s|
    ensures Spaces(s, i, r)
    ensures CodeAt(s, r) != ' ' as int
    decreases |s| - i
  {
    if i < |s| && s[i] == ' ' then SkipSpaces(s, i + 1) else i
  }

  /**
   * `eat(c)` started at position `i`: whether it succeeded and where the cursor is
   * afterwards. Spaces are skipped in both cases; on success the cursor is one
   * past `c`, on failure it rests on the first character that is not a space.
   */
  function EatAt(s: string, i: nat, c: char): (r: (bool, nat))
    requires i <= |s|
    ensures i <= r.1 <= |s|
    ensures r.0 ==> i < r.1 && s[r.1 - 1] == c && c != ' '
    ensures !r.0 ==> CodeAt(s, r.1) != ' ' as int && CodeAt(s, r.1) != c as int
    ensures Spaces(s, i, if r.0 then r.1 - 1 else r.1)
  {
    var j := SkipSpaces(s, i);
    if CodeAt(s, j) == c as int then (true, j + 1) else (false, j)
  }

  /** The two character runs the parser scans: a number token and a function name. */
  datatype Run = Digits | Letters

  predicate InRun(c: int, k: Run) {
    match k
    case Digits => ('0' as int <= c <= '9' as int) || c == '.' as int
    case Letters => 'a' as int <= c <= 'z' as int
  }

  /** Where the scanning `while` loop over a run stops. */
  function RunEnd(s: string, i: nat, k: Run): (r: nat)
    requires i <= |s|
    ensures i <= r <= |s|
    ensures !InRun(CodeAt(s, r), k)
    decreases |s| - i
  {
    if i < |s| && InRun(s[i] as int, k) then RunEnd(s, i + 1, k) else i
  }

  function Dots(t: string): nat {
    if t == [] then 0 else (if t[0] == '.' then 1 else 0) + Dots(t[1..])
  }

  /**
   * Whether `String.toDouble` accepts a token made of digits and dots: it needs
   * at least one digit and at most one dot ("1.", ".5" pass; ".", "1.2.3" fail).
   */
  predicate ValidNumber(t: string) {
    Dots(t) <= 1 && exists i :: 0 <= i < |t| && IsDigit(t[i])
  }

  // ---------------------------------------------------------------------------
  // The grammar, position by position

  /** Characters at which a finished factor can stop: `eat('^')` failed there. */
  predicate FactorStop(c: int) {
    c != ' ' as int && c != '^' as int
  }

  /** A finished term stops where neither `*` nor `/` follows. */
  predicate TermStop(c: int) {
    FactorStop(c) && c != '*' as int && c != '/' as int
  }

  /** A finished expression stops where no binary operator follows. */
  predicate ExpressionStop(c: int) {
    TermStop(c) && c != '+' as int && c != '-' as int
  }

  /** `parseExpression`: a term, then the `+`/`-` loop. */
  function Expression(s: string, i: nat): (r: Result<Parsed>)
    requires i <= |s|
    ensures r.Ok? ==> i < r.value.end <= |s| && ExpressionStop(CodeAt(s, r.value.end))
    decreases |s| - i, 5
  {
    match Term(s, i)
    case Err(e) => Err(e)
    case Ok(t) => ExpressionTail(s, t.end, t.expr)
  }

  /** One turn of the `+`/`-` loop, with the value so far in `x`. */
  function ExpressionTail(s: string, i: nat, x: Expr): (r: Result<Parsed>)
    requires i <= |s| && TermStop(CodeAt(s, i))
    ensures r.Ok? ==> i <= r.value.end <= |s| && ExpressionStop(CodeAt(s, r.value.end))
    decreases |s| - i, 4
  {
    var (plus, j) := EatAt(s, i, '+');
    if plus then
      match Term(s, j)
      case Err(e) => Err(e)
      case Ok(t) => ExpressionTail(s, t.end, Add(x, t.expr))
    else
      var (minus, k) := EatAt(s, j, '-');
      if minus then
        match Term(s, k)
        case Err(e) => Err(e)
        case Ok(t) => ExpressionTail(s, t.end, Sub(x, t.expr))
      else
        Ok(Parsed(x, k))
  }

  /** `parseTerm`: a factor, then the `*`/`/` loop. */
  function Term(s: string, i: nat): (r: Result<Parsed>)
    requires i <= |s|
    ensures r.Ok? ==> i < r.value.end <= |s| && TermStop(CodeAt(s, r.value.end))
    decreases |s| - i, 3
  {
    match Factor(s, i)
    case Err(e) => Err(e)
    case Ok(f) => TermTail(s, f.end, f.expr)
  }

  /** One turn of the `*`/`/` loop, with the value so far in `x`. */
  function TermTail(s: string, i: nat, x: Expr): (r: Result<Parsed>)
    requires i <= |s| && FactorStop(CodeAt(s, i))
    ensures r.Ok? ==> i <= r.value.end <= |s| && TermStop(CodeAt(s, r.value.end))
    decreases |s| - i, 2
  {
    var (times, j) := EatAt(s, i, '*');
    if times then
      match Factor(s, j)
      case Err(e) => Err(e)
      case Ok(f) => TermTail(s, f.end, Mul(x, f.expr))
    else
      var (divide, k) := EatAt(s, j, '/');
      if divide then
        match Factor(s, k)
        case Err(e) => Err(e)
        case Ok(f) => TermTail(s, f.end, Div(x, f.expr))
      else
        Ok(Parsed(x, k))
  }

  /**
   * `parseFactor`: unary `+` and `-` recurse into a whole factor; otherwise a
   * primary, then at most one `^` whose right operand is again a whole factor.
   */
  function Factor(s: string, i: nat): (r: Result<Parsed>)
    requires i <= |s|
    ensures r.Ok? ==> i < r.value.end <= |s| && FactorStop(CodeAt(s, r.value.end))
    decreases |s| - i, 1
  {
    var (plus, j) := EatAt(s, i, '+');
    if plus then
      Factor(s, j)
    else
      var (minus, k) := EatAt(s, j, '-');
      if minus then
        match Factor(s, k)
        case Err(e) => Err(e)
        case Ok(f) => Ok(Parsed(Neg(f.expr), f.end))
      else
        match Primary(s, k)
        case Err(e) => Err(e)
        case Ok(p) =>
          var (caret, m) := EatAt(s, p.end, '^');
          if caret then
            match Factor(s, m)
            case Err(e) => Err(e)
            case Ok(f) => Ok(Parsed(Pow(p.expr, f.expr), f.end))
          else
            Ok(Parsed(p.expr, m))
  }

  /**
   * The middle of `parseFactor`, entered on a character that is not a space:
   * a parenthesised expression (the closing `)` is eaten if present and not
   * required), a number token, or a function name followed by its argument
   * factor; anything else is an unexpected character.
   */
  function Primary(s: string, i: nat): (r: Result<Parsed>)
    requires i <= |s| && CodeAt(s, i) != ' ' as int
    ensures r.Ok? ==> i < r.value.end <= |s|
    decreases |s| - i, 0
  {
    var (open, j) := EatAt(s, i, '(');
    if open then
      match Expression(s, j)
      case Err(e) => Err(e)
      case Ok(x) =>
        var (_, k) := EatAt(s, x.end, ')');
        Ok(Parsed(x.expr, k))
    else if InRun(CodeAt(s, i), Digits) then
      var k := RunEnd(s, i, Digits);
      var token := s[i..k];
      if ValidNumber(token) then Ok(Parsed(Num(token), k)) else Err(MalformedNumber(token))
    else if InRun(CodeAt(s, i), Letters) then
      var k := RunEnd(s, i, Letters);
      var name := s[i..k];
      match Factor(s, k)
      case Err(e) => Err(e)
      case Ok(f) =>
        match FuncNamed(name)
        case None => Err(UnknownFunction(name))
        case Some(fn) => Ok(Parsed(Call(fn, f.expr), f.end))
    else
      Err(UnexpectedCharacter(CodeAt(s, i)))
  }

  /** `parse()`: one expression from the first character, which must reach the end of the input. */
  function ParseAll(s: string): Result<Expr> {
    match Expression(s, 0)
    case Err(e) => Err(e)
    case Ok(x) => if x.end < |s| then Err(UnexpectedCharacter(CodeAt(s, x.end))) else Ok(x.expr)
  }

  // ---------------------------------------------------------------------------
  // Numbers

  /** A Kotlin `Long`. */
  type Long = x: int | -0x8000_0000_0000_0000 <= x < 0x8000_0000_0000_0000

  type NonEmptyString = s: string | |s| > 0 witness "0"

  /**
   * The floating-point operations the evaluator uses, left uninterpreted:
   * `toDouble` of an accepted token, the arithmetic operators, `pow`, `sqrt`,
   * `sin`, `cos`, `tan`, `Math.toRadians`, the finiteness test, `toLong`,
   * `Long.toDouble`, `==` on doubles and `DecimalFormat("#.########").format`,
   * which never renders a finite value as the empty string.
   */
  datatype Arith<!R> = Arith(
    toDouble: string -> R,
    neg: R -> R,
    add: (R, R) -> R,
    sub: (R, R) -> R,
    mul: (R, R) -> R,
    div: (R, R) -> R,
    pow: (R, R) -> R,
    sqrt: R -> R,
    sin: R -> R,
    cos: R -> R,
    tan: R -> R,
    toRadians: R -> R,
    isFinite: R -> bool,
    toLong: R -> Long,
    fromLong: Long -> R,
    same: (R, R) -> bool,
    decimal: R -> NonEmptyString)

  /** The `when (func)` arms: trigonometric functions take degrees. */
  function Apply<R>(f: Func, x: R, ar: Arith<R>): R {
    match f
    case Sqrt => ar.sqrt(x)
    case Sin => ar.sin(ar.toRadians(x))
    case Cos => ar.cos(ar.toRadians(x))
    case Tan => ar.tan(ar.toRadians(x))
  }

  /** The value the parser computes for a tree. */
  function Eval<R>(e: Expr, ar: Arith<R>): R {
    match e
    case Num(t) => ar.toDouble(t)
    case Neg(x) => ar.neg(Eval(x, ar))
    case Add(l, r) => ar.add(Eval(l, ar), Eval(r, ar))
    case Sub(l, r) => ar.sub(Eval(l, ar), Eval(r, ar))
    case Mul(l, r) => ar.mul(Eval(l, ar), Eval(r, ar))
    case Div(l, r) => ar.div(Eval(l, ar), Eval(r, ar))
    case Pow(b, x) => ar.pow(Eval(b, ar), Eval(x, ar))
    case Call(f, x) => Apply(f, Eval(x, ar), ar)
  }

  function ExprResult(p: Result<Parsed>): Result<Expr> {
    match p
    case Ok(x) => Ok(x.expr)
    case Err(e) => Err(e)
  }

  /**
   * `formatResult`: infinite and NaN values print as "Error"; a value equal to
   * its `Long` truncation prints as that integer, without a decimal point.
   */
  function FormatResult<R>(v: R, ar: Arith<R>): (r: string)
    ensures |r| > 0
    ensures !ar.isFinite(v) ==> r == "Error"
    ensures ar.isFinite(v) && ar.same(v, ar.fromLong(ar.toLong(v))) ==>
              r == IntToString(ar.toLong(v)) && '.' !in r
  {
    if !ar.isFinite(v) then "Error"
    else
      var n := ar.toLong(v);
      if ar.same(v, ar.fromLong(n)) then IntToString(n) else ar.decimal(v)
  }

  /** What `evaluate(str)` returns. */
  function Evaluation<R>(str: string, ar: Arith<R>): string {
    if IsBlank(str) then ""
    else
      match ParseAll(str)
      case Err(_) => "Error"
      case Ok(e) => FormatResult(Eval(e, ar), ar)
  }

  // ---------------------------------------------------------------------------
  // The parser object

  class Parser {
    const str: string
    var pos: int
    var ch: int

    ghost predicate Valid()
      reads this
    {
      -1 <= pos && ch == CodeAt(str, pos)
    }

    /** The parsed result `r` and the cursor agree with the grammar's outcome `spec`. */
    ghost predicate Agrees(spec: Result<Parsed>, r: Result<Expr>)
      reads this
    {
      r == ExprResult(spec) && (spec.Ok? ==> pos == spec.value.end)
    }

    constructor (str: string)
      ensures this.str == str
      ensures pos == -1 && ch == -1 && Valid()
    {
      this.str := str;
      pos := -1;
      ch := -1;
    }

    /** Moves one position on; `ch` becomes -1 exactly when the cursor is past the last character. */
    method NextChar()
      requires Valid()
      modifies this
      ensures Valid() && pos == old(pos) + 1
      ensures ch == -1 <==> pos >= |str|
    {
      pos := pos + 1;
      ch := if pos < |str| then str[pos] as int else -1;
    }

    method Eat(c: char) returns (ok: bool)
      requires Valid() && 0 <= pos <= |str|
      modifies this
      ensures Valid()
      ensures ok == EatAt(str, old(pos), c).0 && pos == EatAt(str, old(pos), c).1
    {
      while ch == ' ' as int
        invariant Valid() && old(pos) <= pos <= |str|
        invariant SkipSpaces(str, old(pos)) == SkipSpaces(str, pos)
        decreases |str| - pos
      {
        NextChar();
      }
      if ch == c as int {
        NextChar();
        return true;
      }
      return false;
    }

    /** `parse()`: the whole input must be consumed. */
    method Parse() returns (r: Result<Expr>)
      requires Valid() && pos == -1
      modifies this
      ensures r == ParseAll(str)
    {
      NextChar();
      r := ParseExpression();
      if r.Ok? && pos < |str| {
        r := Err(UnexpectedCharacter(ch));
      }
    }

    method ParseExpression() returns (r: Result<Expr>)
      requires Valid() && 0 <= pos <= |str|
      modifies this
      ensures Valid() && old(pos) <= pos <= |str|
      ensures Agrees(Expression(str, old(pos)), r)
      decreases |str| - pos, 5
    {
      var t := ParseTerm();
      if t.Err? {
        return Err(t.error);
      }
      var x := t.value;
      while true
        invariant Valid() && old(pos) <= pos <= |str|
        invariant TermStop(ch)
        invariant Expression(str, old(pos)) == ExpressionTail(str, pos, x)
        decreases |str| - pos
      {
        var plus := Eat('+');
        if plus {
          var y := ParseTerm();
          if y.Err? {
            return Err(y.error);
          }
          x := Add(x, y.value);
        } else {
          var minus := Eat('-');
          if minus {
              var y := ParseTerm();
            if y.Err? {
              return Err(y.error);
            }
            x := Sub(x, y.value);
          } else {
            return Ok(x);
          }
        }
      }
    }

    method ParseTerm() returns (r: Result<Expr>)
      requires Valid() && 0 <= pos <= |str|
      modifies this
      ensures Valid() && old(pos) <= pos <= |str|
      ensures Agrees(Term(str, old(pos)), r)
      decreases |str| - pos, 3
    {
      var f := ParseFactor();
      if f.Err? {
        return Err(f.error);
      }
      var x := f.value;
      while true
        invariant Valid() && old(pos) <= pos <= |str|
        invariant FactorStop(ch)
        invariant Term(str, old(pos)) == TermTail(str, pos, x)
        decreases |str| - pos
      {
        var times := Eat('*');
        if times {
          var y := ParseFactor();
          if y.Err? {
            return Err(y.error);
          }
          x := Mul(x, y.value);
        } else {
          var divide := Eat('/');
          if divide {
            var y := ParseFactor();
            if y.Err? {
              return Err(y.error);
            }
            x := Div(x, y.value);
          } else {
            return Ok(x);
          }
        }
      }
    }

    method ParseFactor() returns (r: Result<Expr>)
      requires Valid() && 0 <= pos <= |str|
      modifies this
      ensures Valid() && old(pos) <= pos <= |str|
      ensures Agrees(Factor(str, old(pos)), r)
      decreases |str| - pos, 1
    {
      var plus := Eat('+');
      if plus {
        r := ParseFactor();
        return;
      }
      var minus := Eat('-');
      if minus {
        var f := ParseFactor();
        if f.Err? {
          return Err(f.error);
        }
        return Ok(Neg(f.value));
      }
      var x := ParsePrimary();
      if x.Err? {
        return x;
      }
      var caret := Eat('^');
      if caret {
        var y := ParseFactor();
        if y.Err? {
          return Err(y.error);
        }
        return Ok(Pow(x.value, y.value));
      }
      return x;
    }

    /**
     * The middle of `parseFactor`, after the unary signs: a parenthesised
     * expression, a number token or a function call.
     */
    method ParsePrimary() returns (r: Result<Expr>)
      requires Valid() && 0 <= pos <= |str| && ch != ' ' as int
      modifies this
      ensures Valid() && old(pos) <= pos <= |str|
      ensures Agrees(Primary(str, old(pos)), r)
      decreases |str| - pos, 0
    {
      var startPos := pos;
      var open := Eat('(');
      if open {
        r := ParseExpression();
        if r.Ok? {
          var closed := Eat(')');
        }
      } else if InRun(ch, Digits) {
        while InRun(ch, Digits)
          invariant Valid() && startPos <= pos <= |str|
          invariant RunEnd(str, startPos, Digits) == RunEnd(str, pos, Digits)
          decreases |str| - pos
        {
          NextChar();
        }
        var token := str[startPos..pos];
        r := if ValidNumber(token) then Ok(Num(token)) else Err(MalformedNumber(token));
      } else if InRun(ch, Letters) {
        while InRun(ch, Letters)
          invariant Valid() && startPos <= pos <= |str|
          invariant RunEnd(str, startPos, Letters) == RunEnd(str, pos, Letters)
          decreases |str| - pos
        {
          NextChar();
        }
        var name := str[startPos..pos];
        var arg := ParseFactor();
        if arg.Err? {
          return Err(arg.error);
        }
        r := match FuncNamed(name)
          case None => Err(UnknownFunction(name))
          case Some(fn) => Ok(Call(fn, arg.value));
      } else {
        r := Err(UnexpectedCharacter(ch));
      }
    }
  }

  /**
   * `evaluate(str)`: "" for blank input without parsing; otherwise the formatted
   * value, with every parse failure caught and turned into "Error".
   */
  method Evaluate<R>(str: string, ar: Arith<R>) returns (out: string)
    ensures out == Evaluation(str, ar)
  {
    if IsBlank(str) {
      return "";
    }
    var parser := new Parser(str);
    var r := parser.Parse();
    match r
    case Err(_) =>
      out := "Error";
    case Ok(e) =>
      out := FormatResult(Eval(e, ar), ar);
  }
}
