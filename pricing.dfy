/**
 * The fare formula of `compute_fare`: a base charge plus a per-kilometre and a per-kilogram
 * rate, rounded to two decimals, with a ten per cent company commission split off.
 * Amounts are computed in integer paise (hundredths of a rupee) with Python's `round`,
 * which rounds halves to the even neighbour.
 */
module Pricing {

  const BaseFare: int := 30
  const PerKm: int := 10
  const PerKg: int := 5
  const CommissionRate: real := 0.10

  /* ---------- Python's round(x) ---------- */

  /** x lies exactly halfway between two integers. */
  predicate IsTie(x: real) {
    x - x.Floor as real == 0.5
  }

  /** n is what Python's `round(x)` gives: a nearest integer, the even one on a tie. */
  predicate IsRoundHalfEven(x: real, n: int) {
    x - 0.5 <= n as real <= x + 0.5 && (IsTie(x) ==> n % 2 == 0)
  }

  function RoundHalfEven(x: real): (n: int)
    ensures IsRoundHalfEven(x, n)
  {
    var f := x.Floor;
    var d := x - f as real;
    if d < 0.5 then f
    else if d > 0.5 then f + 1
    else if f % 2 == 0 then f
    else f + 1
  }

  /** The rounding is determined by its specification: there is exactly one such integer. */
  lemma {:induction false} RoundHalfEvenUnique(x: real, n: int)
    ensures IsRoundHalfEven(x, n) <==> n == RoundHalfEven(x)
  {
    var r := RoundHalfEven(x);
    if IsRoundHalfEven(x, n) && n != r {
      assert n == r + 1 || n == r - 1;
      assert IsTie(x);
      assert false;
    }
  }

  /** `round` never decreases: x <= y gives round(x) <= round(y). */
  lemma {:induction false} RoundHalfEvenMonotone(x: real, y: real)
    requires x <= y
    ensures RoundHalfEven(x) <= RoundHalfEven(y)
  {
    var a, b := RoundHalfEven(x), RoundHalfEven(y);
    if a > b {
      assert false;
    }
  }

  /** Shifting by an integer shifts the rounding, unless a tie changes which neighbour is even. */
  lemma {:induction false} RoundHalfEvenShift(x: real, k: int)
    requires !IsTie(x) || k % 2 == 0
    ensures RoundHalfEven(x + k as real) == RoundHalfEven(x) + k
  {
    var n := RoundHalfEven(x) + k;
    assert (x + k as real).Floor == x.Floor + k;
    assert IsTie(x + k as real) == IsTie(x);
    assert IsRoundHalfEven(x + k as real, n);
    RoundHalfEvenUnique(x + k as real, n);
  }

  /** On a tie with an odd shift the two differ by exactly one. */
  lemma {:induction false} RoundHalfEvenOddShift(x: real, k: int)
    requires IsTie(x) && k % 2 != 0
    ensures RoundHalfEven(x + k as real) - (RoundHalfEven(x) + k) in {-1, 1}
  {
    assert (x + k as real).Floor == x.Floor + k;
  }

  /** `round(x, 2)` expressed in hundredths: round(x, 2) == Hundredths(x) / 100. */
  function Hundredths(x: real): (p: int)
    ensures x * 100.0 - 0.5 <= p as real <= x * 100.0 + 0.5
  {
    RoundHalfEven(x * 100.0)
  }

  /** An amount of paise as the rupee value stored in a float column. */
  function Rupees(paise: int): real {
    paise as real / 100.0
  }

  /** `round(x, 2)` as a rupee value. */
  function Round2(x: real): real {
    Rupees(Hundredths(x))
  }

  /* ---------- compute_fare ---------- */

  /** `total` before rounding: BASE_FARE + distance * PER_KM + weight * PER_KG. */
  function UnroundedTotal(distanceKm: real, weightKg: real): real {
    BaseFare as real + distanceKm * PerKm as real + weightKg * PerKg as real
  }

  /** The tuple `(round(total, 2), driver_share, commission)`, each in paise, in that order. */
  datatype Fare = Fare(total: int, driverShare: int, commission: int)

  function ComputeFare(distanceKm: real, weightKg: real): (f: Fare)
    ensures IsRoundHalfEven(UnroundedTotal(distanceKm, weightKg) * 100.0, f.total)
    ensures IsRoundHalfEven(UnroundedTotal(distanceKm, weightKg) * CommissionRate * 100.0, f.commission)
    ensures IsRoundHalfEven(UnroundedTotal(distanceKm, weightKg) * 100.0 - f.commission as real, f.driverShare)
  {
    var total := UnroundedTotal(distanceKm, weightKg);
    var commission := Hundredths(total * CommissionRate);
    var driverShare := Hundredths(total - Rupees(commission));
    assert (total - Rupees(commission)) * 100.0 == total * 100.0 - commission as real;
    Fare(Hundredths(total), driverShare, commission)
  }

  /** Each rupee of distance or weight adds to the unrounded total: strictly increasing in each input. */
  lemma {:induction false} UnroundedTotalIncreasing(d1: real, d2: real, w1: real, w2: real)
    requires d1 <= d2 && w1 <= w2 && (d1 < d2 || w1 < w2)
    ensures UnroundedTotal(d1, w1) < UnroundedTotal(d2, w2)
  {
    calc {
      UnroundedTotal(d1, w1);
    ==
      30.0 + 10.0 * d1 + 5.0 * w1;
    <
      30.0 + 10.0 * d2 + 5.0 * w2;
    ==
      UnroundedTotal(d2, w2);
    }
  }

  /** The rounded total never decreases when distance or weight grows. */
  lemma {:induction false} FareTotalMonotone(d1: real, d2: real, w1: real, w2: real)
    requires d1 <= d2 && w1 <= w2
    ensures ComputeFare(d1, w1).total <= ComputeFare(d2, w2).total
  {
    if d1 < d2 || w1 < w2 {
      UnroundedTotalIncreasing(d1, d2, w1, w2);
    }
    RoundHalfEvenMonotone(UnroundedTotal(d1, w1) * 100.0, UnroundedTotal(d2, w2) * 100.0);
  }

  /**
   * The split adds up: driver share plus commission is the rounded total, except on a
   * half-paisa total whose commission is an odd number of paise, where they differ by one paisa.
   */
  lemma {:induction false} FareSplit(distanceKm: real, weightKg: real)
    ensures var f := ComputeFare(distanceKm, weightKg);
      var x := UnroundedTotal(distanceKm, weightKg) * 100.0;
      (f.driverShare + f.commission == f.total <==> !IsTie(x) || f.commission % 2 == 0)
      && -1 <= f.driverShare + f.commission - f.total <= 1
  {
    var f := ComputeFare(distanceKm, weightKg);
    var x := UnroundedTotal(distanceKm, weightKg) * 100.0;
    var c := f.commission;
    assert f.driverShare == RoundHalfEven(x + (-c) as real) by {
      RoundHalfEvenUnique(x + (-c) as real, f.driverShare);
    }
    assert f.total == RoundHalfEven(x);
    if !IsTie(x) || (-c) % 2 == 0 {
      RoundHalfEvenShift(x, -c);
    } else {
      RoundHalfEvenOddShift(x, -c);
    }
  }

  /** Distances and weights given to the paisa (two decimals) always split exactly. */
  lemma {:induction false} FareSplitExact(distanceKm: real, weightKg: real)
    requires (distanceKm * 100.0).Floor as real == distanceKm * 100.0
    requires (weightKg * 100.0).Floor as real == weightKg * 100.0
    ensures var f := ComputeFare(distanceKm, weightKg); f.driverShare + f.commission == f.total
  {
    var x := UnroundedTotal(distanceKm, weightKg) * 100.0;
    var dp, wp := (distanceKm * 100.0).Floor, (weightKg * 100.0).Floor;
    assert x == (3000 + 10 * dp + 5 * wp) as real;
    assert !IsTie(x);
    FareSplit(distanceKm, weightKg);
  }

  /** Non-negative inputs give a non-negative total, commission and driver share. */
  lemma {:induction false} FareNonNegative(distanceKm: real, weightKg: real)
    requires distanceKm >= 0.0 && weightKg >= 0.0
    ensures var f := ComputeFare(distanceKm, weightKg);
      f.total >= 3000 && f.commission >= 300 && f.driverShare >= 0
  {
    var t := UnroundedTotal(distanceKm, weightKg);
    assert t >= 30.0;
    RoundHalfEvenMonotone(3000.0, t * 100.0);
    assert RoundHalfEven(3000.0) == 3000;
    assert t * CommissionRate * 100.0 >= 300.0;
    RoundHalfEvenMonotone(300.0, t * CommissionRate * 100.0);
    assert RoundHalfEven(300.0) == 300;
    FareSplit(distanceKm, weightKg);
    var f := ComputeFare(distanceKm, weightKg);
    assert f.commission as real <= t * 10.0 + 0.5;
  }

  /** With no distance and no weight the fare is the base charge: 30 rupees, 27 to the driver, 3 commission. */
  lemma BaseOnlyFare()
    ensures ComputeFare(0.0, 0.0) == Fare(3000, 2700, 300)
  {
    assert RoundHalfEven(3000.0) == 3000;
    assert RoundHalfEven(300.0) == 300;
    assert RoundHalfEven(2700.0) == 2700;
  }

  /** 11.2 km carrying 5 kg: 167 rupees, of which 150.30 to the driver and 16.70 commission. */
  lemma SampleFare()
    ensures ComputeFare(11.2, 5.0) == Fare(16700, 15030, 1670)
  {
    assert UnroundedTotal(11.2, 5.0) == 167.0;
    assert RoundHalfEven(16700.0) == 16700;
    assert RoundHalfEven(1670.0) == 1670;
    assert RoundHalfEven(15030.0) == 15030;
  }
}
