/** Small facts about real arithmetic that the solver needs spelled out. */
module Numeric {

  function Abs(x: real): (a: real)
    ensures 0.0 <= a && (a == x || a == -x)
  {
    if x < 0.0 then -x else x
  }

  function Min(a: real, b: real): (m: real)
    ensures m <= a && m <= b && (m == a || m == b)
  {
    if a <= b then a else b
  }

  lemma MulNonneg(a: real, b: real)
    requires 0.0 <= a && 0.0 <= b
    ensures 0.0 <= a * b
  {
  }

  lemma MulMonotone(a: real, b: real, c: real)
    requires a <= b && 0.0 <= c
    ensures a * c <= b * c
  {
    assert b * c - a * c == (b - a) * c;
  }

  lemma MulStrict(a: real, b: real, c: real)
    requires a < b && 0.0 < c
    ensures a * c < b * c
  {
    assert b * c - a * c == (b - a) * c;
  }

  /** Scaling by a non-negative factor scales the magnitude. */
  lemma AbsScale(x: real, k: real)
    requires 0.0 <= k
    ensures Abs(x * k) == k * Abs(x)
  {
    if x < 0.0 {
      assert x * k == -((-x) * k);
      MulNonneg(-x, k);
    } else {
      MulNonneg(x, k);
    }
  }

  /** Scaling by a factor in [0, 1] never lengthens a step. */
  lemma ScaledStepIsShorter(v: real, e: real)
    requires 0.0 <= e <= 1.0
    ensures Abs(v * e) <= Abs(v)
  {
    if v >= 0.0 {
      MulMonotone(e, 1.0, v);
      MulNonneg(v, e);
      assert v * e == e * v;
      assert Abs(v * e) == v * e;
    } else {
      MulMonotone(e, 1.0, -v);
      MulNonneg(-v, e);
      assert v * e == -(e * (-v));
      assert Abs(v * e) == e * (-v);
    }
  }

  /** A life fraction is at most 1. */
  lemma LifeFraction(life: real, maxLife: real)
    ensures 0.0 < maxLife && life <= maxLife ==> life / maxLife <= 1.0
  {
    if 0.0 < maxLife && life <= maxLife {
      var ratio := life / maxLife;
      assert ratio * maxLife == life;
      if ratio > 1.0 {
        MulStrict(1.0, ratio, maxLife);
      }
    }
  }
}
