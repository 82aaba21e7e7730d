/** Facts about integer multiplication and Euclidean division shared by the
    calendar arithmetic and the progress percentage. */
module Arithmetic {

  lemma MulLe(x: int, y: int, d: int)
    requires x <= y && 0 <= d
    ensures x * d <= y * d
  {
  }

  /** Euclidean division has one quotient for each remainder in 0..d-1. */
  lemma DivUnique(a: int, q: int, r: int, d: int)
    requires 0 < d && 0 <= r < d && a == q * d + r
    ensures a / d == q
  {
    var q', r' := a / d, a % d;
    assert a == q' * d + r' && 0 <= r' < d;
    if q' > q {
      MulLe(q + 1, q', d);
      assert false;
    } else if q' < q {
      MulLe(q' + 1, q, d);
      assert false;
    }
  }

  /** Dividing by a positive number keeps order. */
  lemma DivMonotone(a: int, b: int, d: int)
    requires 0 < d && a <= b
    ensures a / d <= b / d
  {
    var ra, rb := a / d, b / d;
    assert a == ra * d + a % d && b == rb * d + b % d;
    if ra > rb {
      MulLe(rb + 1, ra, d);
      assert false;
    }
  }
}
