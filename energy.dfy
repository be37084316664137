/** The air-conditioner calculator: one unit draws 0.8 kWh per hour of use,
    and the grid emits 0.424 kg of CO2 per kWh. Quantities are kept as exact
    integers in scaled units: energy in tenths of a kWh, the exact CO2
    amount in ten-thousandths of a kg, the rounded CO2 amount in hundredths
    of a kg. */
module EnergyEstimator {

  /** 0.8 kWh per hour of use, in tenths of a kWh. */
  const POWER_TENTHS_KWH: nat := 8

  /** 0.424 kg of CO2 per kWh, in thousandths of a kg. */
  const EMISSION_GRAMS_PER_KWH: nat := 424

  /** The values of the hours-per-day slider. */
  predicate ValidHours(hours: int) { 0 <= hours <= 24 }

  /** The values of the days slider. */
  predicate ValidDays(days: int) { 1 <= days <= 90 }

  /** Energy used over `days` days of `hours` hours each, in tenths of a kWh.
      It is a whole number of hours' draw, and zero exactly when no hour is used. */
  function EnergyTenths(hours: nat, days: nat): (e: nat)
    ensures e % POWER_TENTHS_KWH == 0
    ensures e == 0 <==> hours == 0 || days == 0
  {
    hours * days * POWER_TENTHS_KWH
  }

  /** The exact CO2 amount of an energy amount (tenths of a kWh), in
      ten-thousandths of a kg, before rounding. Since 424 = 8 * 53, it is a
      multiple of 8 ten-thousandths; it is zero exactly when no energy is used. */
  function Co2Exact(energyTenths: nat): (x: nat)
    ensures x % 8 == 0
    ensures x == 0 <==> energyTenths == 0
  {
    energyTenths * EMISSION_GRAMS_PER_KWH
  }

  /** Rounding to two decimals as Python's `round(x, 2)` does on the exact
      value: `x` is in ten-thousandths, the result in hundredths; it is
      within half a hundredth of `x`, and a tie goes to the even neighbour. */
  function RoundHundredths(x: nat): (r: nat)
    ensures 100 * r - 50 <= x <= 100 * r + 50
    ensures x % 100 == 50 ==> r % 2 == 0
  {
    var q, rem := x / 100, x % 100;
    if rem > 50 then q + 1
    else if rem < 50 then q
    else if q % 2 == 0 then q
    else q + 1
  }

  /** The calculator's result: energy in tenths of a kWh and CO2 in
      hundredths of a kg. */
  datatype Estimate = Estimate(energyTenths: nat, co2Hundredths: nat)

  /** `energy = hours * days * 0.8` and `co2 = round(energy * 0.424, 2)`.
      The CO2 figure is strictly within 0.005 kg of energy times 0.424. */
  function Estimated(hours: nat, days: nat): (est: Estimate)
    ensures est.energyTenths == 0 <==> hours == 0 || days == 0
    ensures 100 * est.co2Hundredths - 50 < est.energyTenths * EMISSION_GRAMS_PER_KWH
    ensures est.energyTenths * EMISSION_GRAMS_PER_KWH < 100 * est.co2Hundredths + 50
  {
    var e := EnergyTenths(hours, days);
    NeverATie(e);
    Estimate(e, RoundHundredths(Co2Exact(e)))
  }

  /** The rounding picks a nearest multiple of a hundredth: no other
      candidate is closer to `x`. */
  lemma RoundIsNearest(x: nat, k: int)
    ensures Dist(100 * RoundHundredths(x), x) <= Dist(100 * k, x)
  {
    var r: int := RoundHundredths(x);
    if k < r {
      assert 100 * k <= 100 * r - 100;
    } else if k > r {
      assert 100 * k >= 100 * r + 100;
    }
  }

  /** Distance between two integers. */
  function Dist(a: int, b: int): nat {
    if a < b then b - a else a - b
  }

  /** Rounding never reverses the order of two amounts. */
  lemma RoundMonotone(x: nat, y: nat)
    requires x <= y
    ensures RoundHundredths(x) <= RoundHundredths(y)
  {
  }

  /** Every exact CO2 amount is a multiple of 4 ten-thousandths, so it never
      ends in exactly half a hundredth: Python's tie-breaking rule never
      comes into play. */
  lemma NeverATie(energyTenths: nat)
    ensures Co2Exact(energyTenths) % 100 != 50
  {
    var x := Co2Exact(energyTenths);
    assert x == 4 * (energyTenths * 106);
    var q, rem := x / 100, x % 100;
    assert x == 4 * (25 * q) + rem;
    assert rem % 4 == 0;
  }

  /** Over the sliders' ranges, energy is at most 24 * 90 * 0.8 = 1728 kWh. */
  lemma EnergyBounded(hours: nat, days: nat)
    requires ValidHours(hours) && ValidDays(days)
    ensures EnergyTenths(hours, days) <= 17280
  {
    EnergyMonotone(hours, days, 24, 90);
  }

  /** More hours or more days never use less energy. */
  lemma EnergyMonotone(h1: nat, d1: nat, h2: nat, d2: nat)
    requires h1 <= h2 && d1 <= d2
    ensures EnergyTenths(h1, d1) <= EnergyTenths(h2, d2)
  {
    assert h1 * d1 <= h2 * d1 by { MulMonotone(h1, h2, d1); }
    assert h2 * d1 <= h2 * d2 by { MulMonotone(d1, d2, h2); }
  }

  /** Multiplying by a natural number keeps the order. */
  lemma {:induction false} MulMonotone(a: nat, b: nat, c: nat)
    requires a <= b
    ensures a * c <= b * c
  {
    if c > 0 {
      MulMonotone(a, b, c - 1);
      assert a * c == a * (c - 1) + a;
      assert b * c == b * (c - 1) + b;
    }
  }

  /** With at least one day, as the slider guarantees, energy is zero
      exactly when the unit is not used at all. */
  lemma EnergyZeroIff(hours: nat, days: nat)
    requires ValidDays(days)
    ensures EnergyTenths(hours, days) == 0 <==> hours == 0
  {
  }

  /** More hours or more days never give a smaller CO2 figure, rounding
      included. */
  lemma Co2Monotone(h1: nat, d1: nat, h2: nat, d2: nat)
    requires h1 <= h2 && d1 <= d2
    ensures Estimated(h1, d1).co2Hundredths <= Estimated(h2, d2).co2Hundredths
  {
    var e1, e2 := EnergyTenths(h1, d1), EnergyTenths(h2, d2);
    EnergyMonotone(h1, d1, h2, d2);
    MulMonotone(e1, e2, EMISSION_GRAMS_PER_KWH);
    RoundMonotone(Co2Exact(e1), Co2Exact(e2));
  }

  /** Over the sliders' ranges, CO2 is at most 732.67 kg. */
  lemma Co2Bounded(hours: nat, days: nat)
    requires ValidHours(hours) && ValidDays(days)
    ensures Estimated(hours, days).co2Hundredths <= 73267
  {
    Co2Monotone(hours, days, 24, 90);
  }

  /** Zero hours of use gives 0 kWh and 0 kg, for any number of days. */
  lemma NoUseNoEmission(days: nat)
    ensures Estimated(0, days) == Estimate(0, 0)
  {
  }

  /** 6 h a day for 30 days: 144.0 kWh and 61.06 kg (exactly 61.056 kg);
      8 h a day for 30 days: 192.0 kWh and 81.41 kg (exactly 81.408 kg). */
  lemma Examples()
    ensures Estimated(6, 30) == Estimate(1440, 6106)
    ensures Co2Exact(1440) == 610560
    ensures Estimated(8, 30) == Estimate(1920, 8141)
    ensures Co2Exact(1920) == 814080
  {
  }
}
