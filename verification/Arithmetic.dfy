/** Small facts about maxima, minima and products. */
module Arithmetic {

  function Max(a: int, b: int): (m: int)
    ensures a <= m && b <= m && (m == a || m == b)
  {
    if a >= b then a else b
  }

  function Min(a: int, b: int): (m: int)
    ensures m <= a && m <= b && (m == a || m == b)
  {
    if a <= b then a else b
  }

  /** The smaller of two reals. */
  function Lesser(a: real, b: real): (m: real)
    ensures m <= a && m <= b && (m == a || m == b)
  {
    if a <= b then a else b
  }

  lemma ScaleUp(k: int, a: int, b: int)
    requires k >= 0 && a >= b
    ensures k * a >= k * b
  {
  }

  lemma ScaleUpReal(c: real, a: real, b: real)
    requires c >= 0.0 && a >= b
    ensures c * a >= c * b
  {
  }
}
