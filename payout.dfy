/**
 * The payout policy shared by both variants of the game: the multiplier
 * table that turns a bet's vertical distance from the price into a payout
 * factor, and the exponential ease-out curve used to damp particle motion.
 */
module Payout {
  import opened Numeric

  /** Payout factors, closest band first. */
  const Table: seq<real> := [2.0, 5.0, 10.0, 20.0, 35.0, 50.0, 75.0, 100.0, 150.0, 200.0]

  /**
   * Multiplier for a bet whose row centre lies `distance` rows from the
   * price. Band k (k >= 1) is (k - 0.5, k + 0.5]; the upper edge belongs to
   * the band, and everything beyond 8.5 pays the terminal 200.
   */
  function GetMultiplier(distance: real): (m: real)
    ensures m in Table
    ensures 2.0 <= m <= 200.0
  {
    if distance <= 0.5 then 2.0
    else if distance <= 1.5 then 5.0
    else if distance <= 2.5 then 10.0
    else if distance <= 3.5 then 20.0
    else if distance <= 4.5 then 35.0
    else if distance <= 5.5 then 50.0
    else if distance <= 6.5 then 75.0
    else if distance <= 7.5 then 100.0
    else if distance <= 8.5 then 150.0
    else 200.0
  }

  /** The multiplier frozen, by both variants, into a bet on row `gridY` while the price is at `priceY`. */
  function FrozenMultiplier(gridY: int, priceY: real): (m: real)
    ensures m in Table
  {
    GetMultiplier(Abs((gridY as real + 0.5) - priceY))
  }

  /** Independent description of the bands: the index of the band holding `distance`. */
  function Band(distance: real): (k: nat)
    ensures k < |Table|
  {
    if distance <= 0.5 then 0
    else
      var c := -((-(distance - 0.5)).Floor);  // ceiling of distance - 0.5
      if c >= 9 then 9 else c
  }

  lemma CeilingBounds(x: real)
    ensures var c := -((-x).Floor); c as real - 1.0 < x <= c as real
  {
  }

  /** The table lookup agrees with the band description, edges included. */
  lemma MultiplierIsBandLookup(distance: real)
    ensures GetMultiplier(distance) == Table[Band(distance)]
  {
    if distance > 0.5 {
      CeilingBounds(distance - 0.5);
    }
  }

  lemma BandMonotone(d1: real, d2: real)
    requires d1 <= d2
    ensures Band(d1) <= Band(d2)
  {
    if d1 > 0.5 {
      CeilingBounds(d1 - 0.5);
      CeilingBounds(d2 - 0.5);
    }
  }

  /** Farther from the price never pays less. */
  lemma {:induction false} MultiplierMonotone(d1: real, d2: real)
    requires d1 <= d2
    ensures GetMultiplier(d1) <= GetMultiplier(d2)
  {
    MultiplierIsBandLookup(d1);
    MultiplierIsBandLookup(d2);
    BandMonotone(d1, d2);
    var i, j := Band(d1), Band(d2);
    assert Table[i] <= Table[j] by {
      assert forall a, b :: 0 <= a <= b < |Table| ==> Table[a] <= Table[b];
    }
  }

  /** Literal values at and around the band edges. */
  lemma MultiplierEdges()
    ensures GetMultiplier(0.0) == 2.0 && GetMultiplier(0.3) == 2.0 && GetMultiplier(0.5) == 2.0
    ensures GetMultiplier(0.51) == 5.0 && GetMultiplier(1.5) == 5.0
    ensures GetMultiplier(8.5) == 150.0 && GetMultiplier(9.0) == 200.0
  {
  }

  /** x raised to the n-th power, by repeated multiplication. */
  function Pow(x: real, n: nat): real
  {
    if n == 0 then 1.0 else x * Pow(x, n - 1)
  }

  lemma {:induction false} PowUnit(x: real, n: nat)
    requires 0.0 <= x <= 1.0
    ensures 0.0 <= Pow(x, n) <= 1.0
  {
    if n > 0 {
      PowUnit(x, n - 1);
      var p := Pow(x, n - 1);
      MulNonneg(x, p);
      MulNonneg(1.0 - x, p);
      assert Pow(x, n) == x * p;
    }
  }

  lemma {:induction false} PowMonotone(y: real, x: real, n: nat)
    requires 0.0 <= y <= x
    ensures 0.0 <= Pow(y, n) <= Pow(x, n)
  {
    if n > 0 {
      PowMonotone(y, x, n - 1);
      var py, px := Pow(y, n - 1), Pow(x, n - 1);
      assert y * py <= x * py;
      assert x * py <= x * px;
    }
  }

  lemma {:induction false} PowAdd(x: real, m: nat, n: nat)
    ensures Pow(x, m + n) == Pow(x, m) * Pow(x, n)
  {
    if m > 0 {
      PowAdd(x, m - 1, n);
      assert Pow(x, m + n) == x * Pow(x, m - 1 + n);
    }
  }

  /**
   * Exponential ease-out: one minus the tenth power of the remaining
   * fraction, so almost all of the motion happens early.
   */
  function EaseOutExpo(t: real): (e: real)
    ensures 0.0 <= t <= 1.0 ==> 0.0 <= e <= 1.0
  {
    PowUnitInterval(1.0 - t);
    1.0 - Pow(1.0 - t, 10)
  }

  /** On the unit interval, easing never lengthens a step. */
  lemma EasedStep(v: real, ratio: real)
    ensures 0.0 <= ratio <= 1.0 ==> Abs(v * EaseOutExpo(ratio)) <= Abs(v)
  {
    if 0.0 <= ratio <= 1.0 {
      ScaledStepIsShorter(v, EaseOutExpo(ratio));
    }
  }

  lemma PowUnitInterval(d: real)
    ensures 0.0 <= d <= 1.0 ==> 0.0 <= Pow(d, 10) <= 1.0
  {
    if 0.0 <= d <= 1.0 {
      PowUnit(d, 10);
    }
  }

  /** The curve starts at 0, ends at 1 and never goes back on the unit interval. */
  lemma EaseOutExpoShape(t1: real, t2: real)
    requires 0.0 <= t1 <= t2 <= 1.0
    ensures EaseOutExpo(0.0) == 0.0 && EaseOutExpo(1.0) == 1.0
    ensures EaseOutExpo(t1) <= EaseOutExpo(t2)
  {
    PowMonotone(1.0 - t2, 1.0 - t1, 10);
    assert Pow(0.0, 10) == 0.0;
    PowOne(10);
  }

  lemma {:induction false} PowOne(n: nat)
    ensures Pow(1.0, n) == 1.0
  {
    if n > 0 {
      PowOne(n - 1);
    }
  }
}
