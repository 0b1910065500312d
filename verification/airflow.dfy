/**
 Fan airflow of the two storage zones: percentage of nominal capacity to m³/h,
 air changes per hour, and the sidebar's conversion of an absolute m³/h slider
 value back to an integer fan percentage.
 */
module Airflow {

  datatype Option<T> = None | Some(value: T)

  // Zone geometry (length × width × height in metres).
  const VolZ1: real := 21.359 * 9.750 * 3.800
  const VolZ2: real := 3.800 * 2.900 * 3.800

  // Design maxima the display and the manual sliders use for 100 %.
  const FanZ1Max: real := 60000.0
  const FanZ2Max: real := 60000.0

  /** Airflow at 100 %: the explicit maximum if one is given, else six air changes per hour. */
  function Capacity(vol: real, maxQ: Option<real>): real
  {
    match maxQ
    case None => vol * 6.0
    case Some(q) => q
  }

  /** The 1 m³/h infiltration floor. */
  function AtLeastOne(x: real): real
  {
    if x >= 1.0 then x else 1.0
  }

  /** Airflow in m³/h for a fan percentage, never below the 1 m³/h infiltration floor. */
  function FanM3h(pct: real, vol: real, maxQ: Option<real>): (q: real)
    ensures q >= 1.0
    ensures q >= pct / 100.0 * Capacity(vol, maxQ)
    ensures q == 1.0 || q == pct / 100.0 * Capacity(vol, maxQ)
  {
    AtLeastOne(pct / 100.0 * Capacity(vol, maxQ))
  }

  /** Zone 02 display airflow: 100 % means FanZ2Max. */
  function FanM3hZ2(pct: real): (q: real)
    ensures q >= 1.0
    ensures pct * 600.0 >= 1.0 ==> q == pct * 600.0
    ensures pct * 600.0 < 1.0 ==> q == 1.0
  {
    FanM3h(pct, VolZ2, Some(FanZ2Max))
  }

  /** Air changes per hour (unrounded). */
  function AchVal(pct: real, vol: real, maxQ: Option<real>): (a: real)
    requires vol > 0.0
    ensures a > 0.0
    ensures a * vol >= 1.0
    ensures a * vol == FanM3h(pct, vol, maxQ)
  {
    FanM3h(pct, vol, maxQ) / vol
  }

  /** Integer division truncating toward zero, like Python's int() of a quotient. */
  function TruncDiv(a: int, b: int): (r: int)
    requires b > 0
    ensures a >= 0 ==> r * b <= a < (r + 1) * b
    ensures a < 0 ==> (r - 1) * b < a <= r * b
  {
    if a >= 0 then a / b else -((-a) / b)
  }

  /**
   Whole-number form of FanZ1Max and FanZ2Max: both zones' sliders share one
   percentage formula only because the two maxima are equal.
   */
  const ManualMaxM3h: int := 60000

  /** Fan percentage for a manual slider value in m³/h against the ManualMaxM3h maximum, at least 1. */
  function ManualPercent(q: int): (r: int)
    ensures r >= 1
    ensures q < 1200 ==> r == 1
    ensures q >= 600 ==> r * 600 <= q < (r + 1) * 600
    ensures q <= ManualMaxM3h ==> r <= 100
  {
    var t := TruncDiv(q * 100, ManualMaxM3h);
    if t > 1 then t else 1
  }

  /** More percent never means less air. */
  lemma FanM3hMonotone(p1: real, p2: real, vol: real, maxQ: Option<real>)
    requires p1 <= p2
    requires Capacity(vol, maxQ) >= 0.0
    ensures FanM3h(p1, vol, maxQ) <= FanM3h(p2, vol, maxQ)
  {
    var c := Capacity(vol, maxQ);
    assert p1 / 100.0 * c <= p2 / 100.0 * c by {
      assert (p2 - p1) / 100.0 * c >= 0.0;
    }
  }

  /** Strictly more air once the floor no longer applies, for a positive capacity. */
  lemma FanM3hStrictlyMonotone(p1: real, p2: real, vol: real, maxQ: Option<real>)
    requires p1 < p2
    requires Capacity(vol, maxQ) > 0.0
    requires FanM3h(p2, vol, maxQ) > 1.0
    ensures FanM3h(p1, vol, maxQ) < FanM3h(p2, vol, maxQ)
  {
    var c := Capacity(vol, maxQ);
    ScaleStrict(p1, p2, c);
    AtLeastOneStrict(p1 / 100.0 * c, p2 / 100.0 * c);
  }

  /** Above the floor, the floor keeps strict order. */
  lemma AtLeastOneStrict(a: real, b: real)
    requires a < b && AtLeastOne(b) > 1.0
    ensures AtLeastOne(a) < AtLeastOne(b)
  {
  }

  lemma ScaleStrict(p1: real, p2: real, c: real)
    requires p1 < p2
    requires c > 0.0
    ensures p1 / 100.0 * c < p2 / 100.0 * c
  {
    assert p2 / 100.0 * c - p1 / 100.0 * c == (p2 - p1) / 100.0 * c;
  }

  /** The manual percentage turned back into m³/h lies within one percent step (600 m³/h) below the slider value. */
  lemma ManualPercentRoundTrip(q: int, vol: real)
    requires 600 <= q
    ensures (q - 600) as real < FanM3h(ManualPercent(q) as real, vol, Some(FanZ1Max)) <= q as real
  {
    var r := ManualPercent(q);
    assert r as real / 100.0 * FanZ1Max == (r * 600) as real;
  }

  /**
   The mass balance always takes six air changes per hour as 100 %, while the
   Zone 02 display takes FanZ2Max: above the floor, the display shows more air
   than the concentration is computed with.
   */
  lemma Zone2DisplayExceedsBalanceAirflow(pct: real)
    requires FanM3hZ2(pct) > 1.0
    ensures FanM3h(pct, VolZ2, None) < FanM3hZ2(pct)
  {
  }
}
