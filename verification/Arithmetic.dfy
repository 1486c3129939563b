/** Division by a positive number, rounding down and up, and powers. */
module Arithmetic {

  function Pow(b: nat, e: nat): nat {
    if e == 0 then 1 else b * Pow(b, e - 1)
  }

  lemma {:induction false} PowPositive(b: nat, e: nat)
    requires b > 0
    ensures Pow(b, e) > 0
  {
    if e > 0 {
      PowPositive(b, e - 1);
    }
  }

  /** `Math.ceil(a / b)` for a non-negative `a` and a positive `b`. */
  function CeilDiv(a: nat, b: int): nat
    requires b > 0
  {
    (a + b - 1) / b
  }

  lemma DivShift(x: int, step: int, w: int)
    requires step > 0
    ensures (x + w * step) / step == x / step + w
  {
    var q, r := x / step, x % step;
    assert x + w * step == (q + w) * step + r;
    DivUnique(x + w * step, step, q + w, r);
  }

  lemma Multiple(d: int, step: int)
    requires step > 0
    ensures d > 0 ==> d * step >= step
    ensures d < 0 ==> d * step <= -step
  {
  }

  lemma DivUnique(x: int, step: int, q: int, r: int)
    requires step > 0 && x == q * step + r && 0 <= r < step
    ensures x / step == q
  {
    var d := x / step - q;
    assert d * step == r - x % step;
    Multiple(d, step);
  }

  lemma DivMonotone(x: int, y: int, step: int)
    requires step > 0 && x <= y
    ensures x / step <= y / step
  {
    var d := x / step - y / step;
    assert d * step == (x - x % step) - (y - y % step);
    Multiple(d, step);
  }
}
