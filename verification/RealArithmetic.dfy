/** Small facts about products and quotients of reals. */
module RealArithmetic {

  /** A product, where it should stand for itself. */
  function Times(a: real, b: real): real { a * b }

  lemma PositiveProduct(a: real, b: real)
    requires a > 0.0 && b > 0.0
    ensures a * b > 0.0
  {
  }

  lemma SquareNonNegative(d: real)
    ensures d * d >= 0.0
  {
  }

  /** A product under a name of its own. */
  lemma NamedProductPositive(a: real, b: real, p: real)
    requires a > 0.0 && b > 0.0 && p == a * b
    ensures p > 0.0
  {
  }

  lemma NegativeSquare(d: real, square: real)
    requires d < 0.0 && square == d * d
    ensures square > 0.0
  {
    var m := -d;
    assert m * m == square;
    NamedProductPositive(m, m, square);
  }

  lemma SquarePositive(d: real, square: real)
    requires d != 0.0 && square == d * d
    ensures square > 0.0
  {
    if d > 0.0 { NamedProductPositive(d, d, square); } else { NegativeSquare(d, square); }
  }

  lemma Distribute(c: real, a: real, b: real)
    ensures c * (a + b) == c * a + c * b
  {
  }

  lemma Scaled(a: real, b: real, v: real)
    requires a <= b && v >= 0.0
    ensures a * v <= b * v
  {
  }

  lemma SameAfterScaling(a: real, b: real, v: real)
    requires v > 0.0 && a * v == b * v
    ensures a == b
  {
  }

  lemma BetweenZeroAndOne(a: real, b: real)
    requires 0.0 <= a <= b && b > 0.0
    ensures 0.0 <= a / b <= 1.0
  {
  }

  lemma SameSquare(a: real, b: real)
    requires a == b
    ensures a * a == b * b
  {
  }

  lemma SumOfQuotients(a: real, b: real, n: real)
    requires n > 0.0
    ensures (a + b) / n == a / n + b / n
  {
  }

  function NonNegative(x: real): real { if x > 0.0 then x else 0.0 }

  /** Math.round: the nearest integer, halves up. */
  function Round(x: real): int { (x + 0.5).Floor }
}
