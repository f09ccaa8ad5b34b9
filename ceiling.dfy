/** `Math.ceil(a / b)` for an integer numerator and a positive integer
    divisor, and the facts the fee formulas rest on. */
module Ceiling {

  /** The least integer q with a <= q * b. */
  function CeilDiv(a: int, b: int): (q: int)
    requires b > 0
    ensures (q - 1) * b < a <= q * b
  {
    -((-a) / b)
  }

  lemma MulLe(x: int, y: int, b: int)
    requires x <= y && b >= 0
    ensures x * b <= y * b
  {
    assert y * b - x * b == (y - x) * b;
  }

  /** The defining bounds determine the ceiling uniquely. */
  lemma CeilDivUnique(a: int, b: int, q: int)
    requires b > 0
    requires (q - 1) * b < a <= q * b
    ensures CeilDiv(a, b) == q
  {
    var r := CeilDiv(a, b);
    if r < q {
      MulLe(r, q - 1, b);
    } else if r > q {
      MulLe(q, r - 1, b);
    }
  }

  /** Both directions: the ceiling is k exactly when a lies in ((k-1)*b, k*b]. */
  lemma CeilDivIs(a: int, b: int, k: int)
    requires b > 0
    ensures CeilDiv(a, b) == k <==> (k - 1) * b < a <= k * b
  {
    if (k - 1) * b < a <= k * b {
      CeilDivUnique(a, b, k);
    }
  }

  lemma CeilDivMonotone(a1: int, a2: int, b: int)
    requires b > 0 && a1 <= a2
    ensures CeilDiv(a1, b) <= CeilDiv(a2, b)
  {
    var r1, r2 := CeilDiv(a1, b), CeilDiv(a2, b);
    if r1 > r2 {
      MulLe(r2, r1 - 1, b);
    }
  }

  /** Rounding up to b and then to c steps of b is rounding up to b * c. */
  lemma CeilDivNested(a: int, b: int, c: int)
    requires b > 0 && c > 0
    ensures CeilDiv(CeilDiv(a, b), c) == CeilDiv(a, b * c)
  {
    var m := CeilDiv(a, b);
    var q := CeilDiv(m, c);
    MulLe(m, q * c, b);
    assert q * c * b == q * (b * c);
    MulLe((q - 1) * c, m - 1, b);
    assert (q - 1) * c * b == (q - 1) * (b * c);
    assert (m - 1) * b < a;
    CeilDivUnique(a, b * c, q);
  }
}
