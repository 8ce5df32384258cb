/**
 * `CalculatorLogic`: four operations on Kotlin `Int`, a 32-bit two's-complement
 * integer. Sums, differences and products wrap around; division truncates
 * toward zero and refuses a zero divisor by throwing.
 */
module CalculatorLogic {

  const Modulus: int := 0x1_0000_0000
  const MinInt: int := -0x8000_0000
  const MaxInt: int := 0x7FFF_FFFF

  /** A Kotlin `Int`. */
  type Int32 = x: int | MinInt <= x <= MaxInt

  /** The outcome of a call that may throw. */
  datatype Outcome = Returns(value: Int32) | Throws(message: string)

  /** The `Int` a mathematical integer wraps to: the one in range that differs from it by a multiple of 2^32. */
  function Wrap(x: int): (r: Int32)
    ensures (x - r) % Modulus == 0
    ensures MinInt <= x <= MaxInt ==> r == x
  {
    (x - MinInt) % Modulus + MinInt
  }

  /** Two integers that differ by a multiple of 2^32 wrap to the same `Int`. */
  lemma WrapCongruent(x: int, y: int)
    requires (x - y) % Modulus == 0
    ensures Wrap(x) == Wrap(y)
  {
    var k := (x - y) / Modulus;
    assert x - MinInt == (y - MinInt) + k * Modulus;
    ModShift(y - MinInt, k);
  }

  lemma ModShift(a: int, k: int)
    ensures (a + k * Modulus) % Modulus == a % Modulus
  {
  }

  /** The negation of a multiple of 2^32 is one too. */
  lemma NegatedMultiple(x: int)
    requires x % Modulus == 0
    ensures (-x) % Modulus == 0
  {
    var k := x / Modulus;
    assert x == k * Modulus;
    ModShift(0, -k);
  }

  function Abs(x: int): nat {
    if x < 0 then -x else x
  }

  /** Division of magnitudes. */
  function Quotient(n: nat, d: nat): nat
    requires d > 0
  {
    n / d
  }

  /** Truncating division: the magnitude of the quotient is the quotient of the magnitudes, its sign the product of the signs. */
  function TruncDiv(a: int, b: int): (q: int)
    requires b != 0
    ensures Abs(q) == Quotient(Abs(a), Abs(b))
    ensures q > 0 ==> (a < 0) == (b < 0)
    ensures q < 0 ==> (a < 0) != (b < 0)
  {
    var m: int := Quotient(Abs(a), Abs(b));
    if (a < 0) == (b < 0) then m else -m
  }

  lemma QuotientRemainder(n: nat, d: nat)
    requires d > 0
    ensures n - Quotient(n, d) * d == n % d && 0 <= n % d < d
  {
  }

  /** The remainder left by truncating division takes the dividend's sign and is smaller than the divisor. */
  lemma TruncatedRemainder(a: int, b: int)
    requires b != 0
    ensures var r := a - TruncDiv(a, b) * b; (r == 0 || (r > 0 <==> a > 0)) && Abs(r) < Abs(b)
  {
    var n: int, d: int := Abs(a), Abs(b);
    var m: int := Quotient(n, d);
    QuotientRemainder(n, d);
    var q := TruncDiv(a, b);
    if a >= 0 && b > 0 {
      assert q * b == m * d;
    } else if a >= 0 {
      assert q * b == (-m) * (-d) == m * d;
    } else if b > 0 {
      assert q * b == -(m * d);
    } else {
      assert q * b == m * (-d) == -(m * d);
    }
  }

  /** `add`: `a + b` on `Int`. */
  function Add(a: Int32, b: Int32): (r: Int32)
    ensures (a + b - r) % Modulus == 0
    ensures MinInt <= a + b <= MaxInt ==> r == a + b
  {
    Wrap(a + b)
  }

  /** `subtract`: `a - b` on `Int`. */
  function Subtract(a: Int32, b: Int32): (r: Int32)
    ensures (a - b - r) % Modulus == 0
    ensures MinInt <= a - b <= MaxInt ==> r == a - b
  {
    Wrap(a - b)
  }

  /** `multiply`: `a * b` on `Int`. */
  function Multiply(a: Int32, b: Int32): (r: Int32)
    ensures (a * b - r) % Modulus == 0
    ensures MinInt <= a * b <= MaxInt ==> r == a * b
  {
    Wrap(a * b)
  }

  /** `divide`: throws `IllegalArgumentException` on a zero divisor, else the truncated quotient on `Int`. */
  function Divide(a: Int32, b: Int32): (r: Outcome)
    ensures r.Throws? <==> b == 0
    ensures r.Throws? ==> r.message == "Cannot divide by zero"
    ensures r.Returns? && !(a == MinInt && b == -1) ==> r.value == TruncDiv(a, b)
  {
    if b == 0 then Throws("Cannot divide by zero")
    else if a == MinInt && b == -1 then Returns(Wrap(TruncDiv(a, b)))
    else QuotientInRange(a, b); Returns(Wrap(TruncDiv(a, b)))
  }

  /** Only `Int.MIN_VALUE / -1` leaves the range, and it wraps back to `Int.MIN_VALUE`. */
  lemma DivideOverflow()
    ensures Divide(MinInt, -1) == Returns(MinInt)
  {
    assert TruncDiv(MinInt, -1) == MaxInt + 1;
  }

  /** Every other quotient is in range, no larger in magnitude than the dividend. */
  lemma QuotientInRange(a: Int32, b: Int32)
    requires b != 0 && !(a == MinInt && b == -1)
    ensures MinInt <= TruncDiv(a, b) <= MaxInt
    ensures Abs(TruncDiv(a, b)) <= Abs(a)
  {
    var n, d := Abs(a), Abs(b);
    QuotientShrinks(n, d);
    if d >= 2 {
      QuotientHalves(n, d);
    }
  }

  lemma QuotientShrinks(n: nat, d: nat)
    requires d >= 1
    ensures Quotient(n, d) <= n
  {
    var q := n / d;
    var e: nat := d - 1;
    assert n == d * q + n % d;
    assert d * q == e * q + q;
    assert e * q >= 0;
  }

  lemma QuotientHalves(n: nat, d: nat)
    requires d >= 2
    ensures Quotient(n, d) <= n / 2
  {
    var q := n / d;
    var e: nat := d - 2;
    assert n == d * q + n % d;
    assert d * q == e * q + 2 * q;
    assert e * q >= 0;
    assert 2 * q <= n;
  }

  /** `-7 / 2` is `-3` in Kotlin, where Euclidean division would give `-4`. */
  lemma DivisionTruncates()
    ensures Divide(-7, 2) == Returns(-3) && Divide(7, -2) == Returns(-3) && Divide(-7, -2) == Returns(3)
  {
  }

  /** Subtracting what was added gives back the start, overflow or not. */
  lemma SubtractUndoesAdd(a: Int32, b: Int32)
    ensures Subtract(Add(a, b), b) == a
  {
    var s := Add(a, b);
    assert (s - b - a) % Modulus == 0 by {
      NegatedMultiple(a + b - s);
      assert s - b - a == -(a + b - s);
    }
    WrapCongruent(s - b, a);
  }

  /** Adding what was subtracted gives back the start, overflow or not. */
  lemma AddUndoesSubtract(a: Int32, b: Int32)
    ensures Add(Subtract(a, b), b) == a
  {
    var d := Subtract(a, b);
    assert (d + b - a) % Modulus == 0 by {
      NegatedMultiple(a - b - d);
      assert d + b - a == -(a - b - d);
    }
    WrapCongruent(d + b, a);
  }

  /** `Int.MAX_VALUE + 1` is `Int.MIN_VALUE`. */
  lemma AddWraps()
    ensures Add(MaxInt, 1) == MinInt && Subtract(MinInt, 1) == MaxInt
  {
  }

  /** The feature screen shows `5 + 3 = 8` and `10 - 4 = 6`. */
  lemma ScreenValues()
    ensures Add(5, 3) == 8 && Subtract(10, 4) == 6
  {
  }
}
