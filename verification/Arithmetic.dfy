/** The few facts about products and quotients that the solver does not find on its own. */
module Arithmetic {

  function Min(a: int, b: int): int {
    if a <= b then a else b
  }

  function Max(a: int, b: int): int {
    if a >= b then a else b
  }

  /** Conversion of a real number to an integer: the fraction is dropped. */
  function Trunc(x: real): int {
    if x >= 0.0 then x.Floor else -((-x).Floor)
  }

  lemma MulCancel(x: int, y: int, b: int)
    requires b > 0 && x * b < y * b
    ensures x < y
  {
  }

  lemma DivisionOf(a: int, b: int, q: int, r: int)
    requires b > 0 && a == q * b + r && 0 <= r < b
    ensures a / b == q && a % b == r
  {
    assert (a / b - q) * b == r - a % b;
    MulCancel(a / b - q, 1, b);
    MulCancel(-1, a / b - q, b);
  }

  /** A quotient, and the quotient plus one when there is a remainder, is less than one away. */
  lemma QuotientNear(n: int, d: int, extra: int)
    requires d > 0 && (extra == 0 || (extra == 1 && n % d > 0))
    ensures -d < (n / d + extra) * d - n < d
  {
    var q := n / d;
    assert q * d + n % d == n;
    assert (q + extra) * d == q * d + extra * d;
  }
}
