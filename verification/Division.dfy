/** Integer division by its defining inequality. */
module Division {
  lemma {:induction false} MulLe(b: int, x: int, y: int)
    requires b > 0 && x <= y
    ensures b * x <= b * y
  {
    assert b * (y - x) >= 0;
  }

  lemma {:induction false} DivisionIs(a: int, b: int, q: int)
    requires b > 0 && b * q <= a < b * q + b
    ensures a / b == q
  {
    var d := a / b;
    assert a == b * d + a % b;
    if d < q { MulLe(b, d + 1, q); }
    if d > q { MulLe(b, q + 1, d); }
  }
}
