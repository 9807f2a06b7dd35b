/** The few facts of division and multiplication that the solver does not find by itself. */
module Division {
  lemma {:induction false} OneMoreMultiple(a: int, b: int, d: int)
    requires a < b && d > 0
    ensures a * d + d <= b * d
    decreases b - a
  {
    assert b * d == (b - 1) * d + d;
    if a < b - 1 {
      OneMoreMultiple(a, b - 1, d);
    }
  }

  lemma {:induction false} DivUnique(x: int, d: int, q: int, m: int)
    requires d > 0 && x == q * d + m && 0 <= m < d
    ensures x / d == q && x % d == m
  {
    var q' := x / d;
    assert x == q' * d + x % d;
    if q' < q {
      OneMoreMultiple(q', q, d);
    } else if q < q' {
      OneMoreMultiple(q, q', d);
    }
  }
}
