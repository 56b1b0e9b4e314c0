/**
 * The stateless calculator: sum, difference and product of two integers,
 * and a quotient that reports division by zero with a message instead of
 * failing. Having no state, each operation is a function of its arguments.
 */
module Calculator {

  /** The sum of `x` and `y`: taking either argument away leaves the other. */
  function Add(x: int, y: int): (r: int)
    ensures r - y == x && r - x == y
  {
    x + y
  }

  /** The difference of `x` and `y`: adding `y` back gives `x`. */
  function Subtract(x: int, y: int): (r: int)
    ensures r + y == x
  {
    x - y
  }

  /**
   * The product of `x` and `y`: divisible by each non-zero factor, with the
   * other factor as quotient, and zero exactly when a factor is zero.
   */
  function Multiply(x: int, y: int): (r: int)
    ensures y != 0 ==> r % y == 0 && r / y == x
    ensures x != 0 ==> r % x == 0 && r / x == y
    ensures r == 0 <==> x == 0 || y == 0
  {
    ProductQuotients(x, y);
    x * y
  }

  /** A product divided by either non-zero factor gives the other factor, exactly. */
  lemma ProductQuotients(x: int, y: int)
    ensures y != 0 ==> (x * y) % y == 0 && (x * y) / y == x
    ensures x != 0 ==> (x * y) % x == 0 && (x * y) / x == y
  {
    if y != 0 { ExactQuotient(x * y, y, x); }
    if x != 0 { ExactQuotient(x * y, x, y); }
  }

  /** A multiple `q * d` of a non-zero `d` leaves no remainder and has quotient `q`. */
  lemma ExactQuotient(a: int, d: int, q: int)
    requires d != 0 && a == q * d
    ensures a % d == 0 && a / d == q
  {
    var q', m := a / d, a % d;
    var e := q - q';
    assert d * e == d * q - d * q';
    assert d * e == m;
    if e != 0 {
      var ad := if d < 0 then -d else d;
      var ae := if e < 0 then -e else e;
      ProductAtLeastFactor(ad, ae);
      assert false;
    }
  }

  /** A positive multiple of a positive number is at least that number. */
  lemma ProductAtLeastFactor(d: int, e: int)
    requires d > 0 && e > 0
    ensures d * e >= d
  {
    assert d * e == d * (e - 1) + d;
  }

  /** What a division returns: the error message, or the exact quotient. */
  datatype DivisionResult = DivError(message: string) | Quotient(value: real)

  /** The message returned for a division by zero. */
  const DivideByZeroMessage: string := "Error: Cannot divide by zero."

  /**
   * The quotient of `x` by `y`, or the error message exactly when `y` is
   * zero; the quotient times `y` gives `x` back.
   */
  function Divide(x: int, y: int): (r: DivisionResult)
    ensures r.DivError? <==> y == 0
    ensures r.DivError? ==> r.message == DivideByZeroMessage
    ensures r.Quotient? ==> r.value * y as real == x as real
  {
    if y == 0 then DivError(DivideByZeroMessage) else Quotient(x as real / y as real)
  }

  /** Adding is commutative. */
  lemma AddCommutative(x: int, y: int)
    ensures Add(x, y) == Add(y, x)
  {
  }

  /** Multiplying is commutative. */
  lemma MultiplyCommutative(x: int, y: int)
    ensures Multiply(x, y) == Multiply(y, x)
  {
  }

  /** Subtracting `y` undoes adding `y`, and adding undoes subtracting. */
  lemma SubtractUndoesAdd(x: int, y: int)
    ensures Subtract(Add(x, y), y) == x
    ensures Add(Subtract(x, y), y) == x
  {
  }

  /** Dividing by a non-zero `y` undoes multiplying by `y`. */
  lemma DivideUndoesMultiply(x: int, y: int)
    requires y != 0
    ensures Divide(Multiply(x, y), y) == Quotient(x as real)
  {
    var q := Divide(Multiply(x, y), y).value;
    assert q * y as real == x as real * y as real;
  }
}
