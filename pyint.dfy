/** Python's `int(x)` applied to a rational x = n / d: truncation toward zero.
    Dafny's own `/` is Euclidean, so the two differ for negative numerators. */
module PyInt {

  /** `int(n / d)` for a positive denominator: the quotient rounded toward zero. */
  function Trunc(n: int, d: int): (q: int)
    requires d > 0
    ensures n >= 0 ==> 0 <= q * d <= n < q * d + d
    ensures n < 0 ==> q * d - d < n <= q * d <= 0
  {
    if n >= 0 then
      FloorBounds(n, d);
      n / d
    else
      FloorBounds(-n, d);
      -((-n) / d)
  }

  /** The Euclidean quotient of a non-negative numerator brackets it. */
  lemma FloorBounds(n: int, d: int)
    requires n >= 0 && d > 0
    ensures 0 <= (n / d) * d <= n < (n / d) * d + d
  {
  }
}
