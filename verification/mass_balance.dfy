/**
 Steady-state mass balance of a ventilated zone: an emission of gas (substrate
 mass × specific rate) diluted by the fan airflow on top of the outside-air
 concentration, plus the gas-specific wrappers and the NH3 emission curve's
 linear start.
 */
module MassBalance {
  import opened Airflow

  const RhoCo2: real := 1.842       // kg/m³
  const RhoNh3: real := 0.769       // kg/m³
  const Co2Ambient: real := 420.0   // ppm in outside air
  const Nh3Ambient: real := 0.02    // ppm in outside air
  const CycleDays: real := 8.0      // length of the rearing cycle in days

  /** Volumetric gas emission in m³/h for a substrate mass (kg) and a rate (g/kg/h). */
  function EmissionM3h(mass: real, rate: real, rho: real): real
    requires rho > 0.0
  {
    mass * rate / 1000.0 / rho
  }

  /**
   Steady-state concentration in ppm (unrounded). The airflow always takes six
   air changes per hour as 100 %, whatever maximum the zone's display uses.
   */
  function CalcPpm(mass: real, rate: real, rho: real, flowPct: real, vol: real, ambient: real): (c: real)
    requires rho > 0.0
    ensures mass >= 0.0 && rate >= 0.0 ==> c >= ambient
    ensures mass > 0.0 && rate > 0.0 ==> c > ambient
  {
    ambient + (EmissionM3h(mass, rate, rho) / FanM3h(flowPct, vol, None)) * 1000000.0
  }

  /** Dilution airflow times excess concentration balances the emission. */
  lemma CalcPpmBalance(mass: real, rate: real, rho: real, flowPct: real, vol: real, ambient: real)
    requires rho > 0.0
    ensures (CalcPpm(mass, rate, rho, flowPct, vol, ambient) - ambient) * FanM3h(flowPct, vol, None) * rho
            == mass * rate * 1000.0
  {
    var q := FanM3h(flowPct, vol, None);
    var e := EmissionM3h(mass, rate, rho);
    assert e / q * q == e;
    assert e * rho == mass * rate / 1000.0;
  }

  /** At the 1 m³/h airflow floor the whole emission appears as excess concentration. */
  lemma CalcPpmAtFloor(mass: real, rate: real, rho: real, flowPct: real, vol: real, ambient: real)
    requires rho > 0.0
    requires FanM3h(flowPct, vol, None) == 1.0
    ensures CalcPpm(mass, rate, rho, flowPct, vol, ambient) == ambient + mass * rate * 1000.0 / rho
  {
    assert mass * rate / 1000.0 / rho * 1000000.0 == mass * rate * 1000.0 / rho;
  }

  /** CO2 concentration for a zone, given the CO2 emission curve as a function of the day. */
  function MacroCo2(mass: real, flowPct: real, vol: real, day: real, co2Rate: real -> real): (c: real)
    ensures mass >= 0.0 && co2Rate(day) >= 0.0 ==> c >= Co2Ambient
  {
    CalcPpm(mass, co2Rate(day), RhoCo2, flowPct, vol, Co2Ambient)
  }

  /** NH3 concentration for a zone, given the NH3 emission curve as a function of the day. */
  function MacroNh3(mass: real, flowPct: real, vol: real, day: real, nh3Rate: real -> real): (c: real)
    ensures mass >= 0.0 && nh3Rate(day) >= 0.0 ==> c >= Nh3Ambient
  {
    CalcPpm(mass, nh3Rate(day), RhoNh3, flowPct, vol, Nh3Ambient)
  }

  /** Local (micro-climate) amplification factor: 1.4 on day 1 rising linearly to 2.4 on day 8. */
  function MicroFactor(day: real): (f: real)
    ensures day == 1.0 ==> f == 1.4
    ensures day == CycleDays ==> f == 2.4
    ensures 1.0 <= day <= CycleDays ==> 1.4 <= f <= 2.4
    ensures f * 7.0 == day + 8.8
  {
    1.4 + 1.0 * ((day - 1.0) / (CycleDays - 1.0))
  }

  /** The slow linear rise of the NH3 rate before 45 % of the cycle. */
  function Nh3Linear(x: real, base: real): real
  {
    base * (1.0 + 0.5 * x / 0.45)
  }

  /** Below 0.45 the linear rise stays under 1.5 times the base rate, and from 0 on it is at least the base rate. */
  lemma Nh3LinearBounds(x: real, base: real)
    requires x < 0.45
    ensures 0.0 <= x && base >= 0.0 ==> base <= Nh3Linear(x, base) <= 1.5 * base
    ensures base > 0.0 ==> Nh3Linear(x, base) < 1.5 * base
  {
    var g := 1.0 + 0.5 * x / 0.45;
    assert g < 1.5;
    if 0.0 <= x && base >= 0.0 {
      assert 1.0 <= g;
      assert base * 1.0 <= base * g <= base * 1.5;
    }
    if base > 0.0 {
      assert base * g < base * 1.5;
    }
  }

  /**
   NH3 emission rate (g/kg/h) for a day. The exponential take-off after 45 % of
   the cycle, exp(2.6·t), is the parameter `takeoff`.
   */
  function Nh3Rate(day: real, base: real, takeoff: real -> real): (r: real)
    ensures day / CycleDays < 0.45 && 0.0 <= day && base >= 0.0 ==> base <= r <= 1.5 * base
    ensures day / CycleDays < 0.45 && 0.0 <= day && base > 0.0 ==> r < 1.5 * base
    ensures day / CycleDays >= 0.45 ==> r == 1.5 * base * takeoff(day / CycleDays - 0.45)
  {
    var x := day / CycleDays;
    if x < 0.45 then Nh3LinearBounds(x, base); Nh3Linear(x, base) else base * 1.5 * takeoff(x - 0.45)
  }

  /** With a non-negative base rate and take-off curve the NH3 rate is never negative from day 0 on. */
  lemma Nh3RateNonNegative(day: real, base: real, takeoff: real -> real)
    requires 0.0 <= day && base >= 0.0
    requires takeoff(day / CycleDays - 0.45) >= 0.0
    ensures Nh3Rate(day, base, takeoff) >= 0.0
  {
    if day / CycleDays >= 0.45 {
      assert base * 1.5 >= 0.0;
      assert base * 1.5 * takeoff(day / CycleDays - 0.45) >= 0.0;
    }
  }

  /** e/b <= e/a for a non-negative numerator and 0 < a <= b. */
  lemma DivAntitone(e: real, a: real, b: real)
    requires e >= 0.0
    requires 0.0 < a <= b
    ensures e / b <= e / a
  {
    assert e / b * b == e;
    assert e / a * a == e;
  }

  /** e/b < e/a for a positive numerator and 0 < a < b. */
  lemma DivStrictlyAntitone(e: real, a: real, b: real)
    requires e > 0.0
    requires 0.0 < a < b
    ensures e / b < e / a
  {
    assert e / b * b == e;
    assert e / a * a == e;
  }

  /** More ventilation never raises the concentration. */
  lemma CalcPpmAntitoneInFlow(mass: real, rate: real, rho: real, p1: real, p2: real, vol: real, ambient: real)
    requires rho > 0.0 && mass >= 0.0 && rate >= 0.0 && vol >= 0.0
    requires p1 <= p2
    ensures CalcPpm(mass, rate, rho, p2, vol, ambient) <= CalcPpm(mass, rate, rho, p1, vol, ambient)
  {
    FanM3hMonotone(p1, p2, vol, None);
    var e := EmissionM3h(mass, rate, rho);
    assert e >= 0.0;
    DivAntitone(e, FanM3h(p1, vol, None), FanM3h(p2, vol, None));
  }

  /** Above the airflow floor, more ventilation strictly lowers a positive emission's concentration. */
  lemma CalcPpmStrictlyAntitoneInFlow(mass: real, rate: real, rho: real, p1: real, p2: real, vol: real, ambient: real)
    requires rho > 0.0 && mass > 0.0 && rate > 0.0 && vol > 0.0
    requires p1 < p2
    requires FanM3h(p2, vol, None) > 1.0
    ensures CalcPpm(mass, rate, rho, p2, vol, ambient) < CalcPpm(mass, rate, rho, p1, vol, ambient)
  {
    FanM3hStrictlyMonotone(p1, p2, vol, None);
    var e := EmissionM3h(mass, rate, rho);
    assert e > 0.0 by {
      assert mass * rate > 0.0;
    }
    DivStrictlyAntitone(e, FanM3h(p1, vol, None), FanM3h(p2, vol, None));
  }

  /** More substrate never lowers the concentration. */
  lemma CalcPpmMonotoneInMass(m1: real, m2: real, rate: real, rho: real, flowPct: real, vol: real, ambient: real)
    requires rho > 0.0 && rate >= 0.0
    requires m1 <= m2
    ensures CalcPpm(m1, rate, rho, flowPct, vol, ambient) <= CalcPpm(m2, rate, rho, flowPct, vol, ambient)
  {
    var q := FanM3h(flowPct, vol, None);
    assert EmissionM3h(m1, rate, rho) <= EmissionM3h(m2, rate, rho) by {
      assert (m2 - m1) * rate >= 0.0;
    }
    assert EmissionM3h(m1, rate, rho) / q <= EmissionM3h(m2, rate, rho) / q;
  }

  /** A higher emission rate never lowers the concentration. */
  lemma CalcPpmMonotoneInRate(mass: real, r1: real, r2: real, rho: real, flowPct: real, vol: real, ambient: real)
    requires rho > 0.0 && mass >= 0.0
    requires r1 <= r2
    ensures CalcPpm(mass, r1, rho, flowPct, vol, ambient) <= CalcPpm(mass, r2, rho, flowPct, vol, ambient)
  {
    var q := FanM3h(flowPct, vol, None);
    assert EmissionM3h(mass, r1, rho) <= EmissionM3h(mass, r2, rho) by {
      assert mass * (r2 - r1) >= 0.0;
    }
    assert EmissionM3h(mass, r1, rho) / q <= EmissionM3h(mass, r2, rho) / q;
  }

  /** The micro factor grows with the day. */
  lemma MicroFactorIncreasing(d1: real, d2: real)
    requires d1 < d2
    ensures MicroFactor(d1) < MicroFactor(d2)
  {
  }

  /** Within the linear branch the NH3 rate never falls as the days pass. */
  lemma Nh3LinearBranchRises(d1: real, d2: real, base: real, takeoff: real -> real)
    requires d1 <= d2 && d2 / CycleDays < 0.45
    requires base >= 0.0
    ensures Nh3Rate(d1, base, takeoff) <= Nh3Rate(d2, base, takeoff)
  {
    assert Nh3Linear(d2 / CycleDays, base) - Nh3Linear(d1 / CycleDays, base)
        == base * (0.5 * (d2 - d1) / CycleDays / 0.45);
  }

  /**
   The two branches of the NH3 curve meet at 45 % of the cycle (day 3.6): the
   linear formula's value there is the exponential branch's starting value.
   */
  lemma Nh3BranchesMeet(base: real, takeoff: real -> real)
    requires takeoff(0.0) == 1.0
    ensures Nh3Rate(3.6, base, takeoff) == Nh3Linear(0.45, base) == 1.5 * base
  {
  }

  /**
   Worked example: Zone 01 fully loaded (51858 kg) at 20 % fan and the average
   CO2 rate of 0.125 g/kg/h reaches about 4126 ppm.
   */
  lemma Zone1Co2Example()
    ensures 4125.0 < CalcPpm(51858.0, 0.125, RhoCo2, 20.0, VolZ1, Co2Ambient) < 4126.5
  {
    var q := FanM3h(20.0, VolZ1, None);
    assert q == 949.62114 by {
      assert Capacity(VolZ1, None) == 4748.1057;
    }
    var e := EmissionM3h(51858.0, 0.125, RhoCo2);
    assert 3.5191 < e < 3.5192;
    assert 3705.0 < e / q * 1000000.0 < 3706.5;
  }
}
