/**
 The arithmetic of the pressure simulator, lifted out of the window class:
 the hydrostatic formula, the fluid and structure tables, the failure
 threshold, the three-band status, the clamped safety margin with its bar
 colour, and the timer-interval bucket. All quantities are `real`s.
 */
module Hydrostatics {

  /** Atmospheric pressure at the surface, in pascals. */
  const AtmPressure: real := 101325.0
  /** Gravitational acceleration, in m/s². */
  const Gravity: real := 9.81
  /** The failure threshold the window starts with, before any configuration change. */
  const InitialMaxPressure: real := 450000.0

  /** The tag shown by the status label. */
  datatype Status = Safe | Critical | Failed

  /** The colour of the safety bar; `Unstyled` until the bar is first repainted. */
  datatype BarColour = Unstyled | Green | Yellow | Red

  /** Pressure at `depth` metres below the surface of a fluid of `density` kg/m³. */
  function Pressure(density: real, depth: real): (p: real)
    ensures depth == 0.0 ==> p == AtmPressure
    ensures density > 0.0 && depth >= 0.0 ==> p >= AtmPressure
  {
    AtmPressure + density * Gravity * depth
  }

  /** Deeper is strictly higher pressure in any fluid of positive density. */
  lemma PressureIncreasesWithDepth(density: real, shallow: real, deep: real)
    requires density > 0.0 && shallow < deep
    ensures Pressure(density, shallow) < Pressure(density, deep)
  {
    assert density * Gravity > 0.0;
    assert (density * Gravity) * shallow < (density * Gravity) * deep;
  }

  /** Density of the fluid chosen in the fluid box; every index but 0 and 1 is the heavy fluid. */
  function FluidDensity(index: int): (d: real)
    ensures d == 1000.0 <==> index == 0
    ensures d == 1025.0 <==> index == 1
    ensures d == 1200.0 <==> index != 0 && index != 1
    ensures 1000.0 <= d <= 1200.0
  {
    if index == 0 then 1000.0
    else if index == 1 then 1025.0
    else 1200.0
  }

  /** Base failure pressure of the structure chosen in the structure box. */
  function BaseThreshold(structure: int): (b: real)
    ensures b == 500000.0 <==> structure == 0
    ensures b == 1000000.0 <==> structure == 1
    ensures b == 2000000.0 <==> structure == 2
    ensures b == 300000.0 <==> structure != 0 && structure != 1 && structure != 2
    ensures 300000.0 <= b <= 2000000.0
  {
    if structure == 0 then 500000.0
    else if structure == 1 then 1000000.0
    else if structure == 2 then 2000000.0
    else 300000.0
  }

  /** The slider position read as a safety factor (slider 10..30 is factor 1.0..3.0). */
  function SafetyFactor(slider: int): (f: real)
    ensures 10 <= slider <= 30 ==> 1.0 <= f <= 3.0
  {
    slider as real / 10.0
  }

  /** Mode index 0 is the preset mode; every other index is custom. */
  const PresetMode: int := 0

  /**
   The failure threshold for a mode, structure and slider position: the preset
   mode multiplies the base by 1.5, the custom mode by the slider's factor.
   */
  function MaxPressure(mode: int, structure: int, slider: int): (m: real)
    ensures mode == PresetMode || 10 <= slider <= 30 ==>
      300000.0 <= m <= 6000000.0
  {
    var base := BaseThreshold(structure);
    if mode == PresetMode then base * 1.5
    else base * SafetyFactor(slider)
  }

  /** In preset mode the slider has no effect on the threshold. */
  lemma PresetIgnoresSlider(structure: int, slider: int, other: int)
    ensures MaxPressure(PresetMode, structure, slider) == MaxPressure(PresetMode, structure, other)
    ensures MaxPressure(PresetMode, structure, slider) == 1.5 * BaseThreshold(structure)
  {
  }

  /** In custom mode the threshold lies between one and three times the base, growing with the slider. */
  lemma CustomWithinFactorRange(mode: int, structure: int, slider: int, higher: int)
    requires mode != PresetMode
    requires 10 <= slider <= higher <= 30
    ensures BaseThreshold(structure) <= MaxPressure(mode, structure, slider)
    ensures MaxPressure(mode, structure, slider) <= MaxPressure(mode, structure, higher)
    ensures MaxPressure(mode, structure, higher) <= 3.0 * BaseThreshold(structure)
  {
    var base := BaseThreshold(structure);
    assert base * SafetyFactor(slider) <= base * SafetyFactor(higher);
  }

  /** Every threshold the widgets can select lies above atmospheric pressure. */
  lemma MaxPressureAboveAtmosphere(mode: int, structure: int, slider: int)
    requires 10 <= slider <= 30
    ensures MaxPressure(mode, structure, slider) > AtmPressure
  {
  }

  /**
   The three-band status: below 80% of the threshold is safe, from 80% up to
   the threshold is critical, the threshold and above is failed.
   */
  function Classify(pressure: real, maxPressure: real): (s: Status)
    ensures s == Safe <==> pressure < 0.8 * maxPressure
    ensures maxPressure >= 0.0 ==>
      (s == Critical <==> 0.8 * maxPressure <= pressure < maxPressure)
    ensures maxPressure >= 0.0 ==> (s == Failed <==> pressure >= maxPressure)
  {
    var critical := 0.8 * maxPressure;
    if pressure < critical then Safe
    else if pressure < maxPressure then Critical
    else Failed
  }

  /** Rank of a status, from safest to worst. */
  function Severity(s: Status): nat
  {
    match s
    case Safe => 0
    case Critical => 1
    case Failed => 2
  }

  /** Both boundaries belong to the worse band: exactly 80% is critical, exactly 100% is failed. */
  lemma ClassifyBoundaries(maxPressure: real)
    requires maxPressure > 0.0
    ensures Classify(0.8 * maxPressure, maxPressure) == Critical
    ensures Classify(maxPressure, maxPressure) == Failed
  {
  }

  /** More pressure never gives a safer status. */
  lemma ClassifyMonotone(low: real, high: real, maxPressure: real)
    requires low <= high
    ensures Severity(Classify(low, maxPressure)) <= Severity(Classify(high, maxPressure))
  {
  }

  /** qMin and qMax as the toolkit defines them: the first argument unless the comparison picks the second. */
  function QMin(a: real, b: real): real { if a < b then a else b }
  function QMax(a: real, b: real): real { if a < b then b else a }

  /** Dividing by a positive number keeps the order. */
  lemma DivideKeepsOrder(x: real, y: real, d: real)
    requires d > 0.0 && x <= y
    ensures x / d <= y / d
  {
    var q := (y - x) / d;
    assert q * d == y - x;
    assert y / d - x / d == q;
  }

  /**
   The safety margin shown in the bar, in percent:
   100 * (1 - (p - atm) / (max - atm)), clamped to [0, 100].
   When max equals atm the division is by zero; the clamp then yields 100 for
   p below atm (a positive infinity) and 0 otherwise (a negative infinity, or
   NaN, which qMax turns into its first argument 0).
   */
  function SafetyMargin(pressure: real, maxPressure: real): (r: real)
    ensures 0.0 <= r <= 100.0
    ensures maxPressure > AtmPressure && pressure == AtmPressure ==> r == 100.0
    ensures maxPressure > AtmPressure && pressure >= maxPressure ==> r == 0.0
  {
    if maxPressure == AtmPressure then
      (if pressure < AtmPressure then 100.0 else 0.0)
    else
      var span := maxPressure - AtmPressure;
      var raw := 100.0 * (1.0 - (pressure - AtmPressure) / span);
      assert span > 0.0 && pressure >= maxPressure ==> raw <= 0.0 by {
        if span > 0.0 && pressure >= maxPressure {
          DivideKeepsOrder(span, pressure - AtmPressure, span);
          assert span / span == 1.0;
        }
      }
      QMax(0.0, QMin(100.0, raw))
  }

  /** Under a threshold above atmosphere, more pressure never gives a larger margin. */
  lemma SafetyMarginAntitone(low: real, high: real, maxPressure: real)
    requires maxPressure > AtmPressure && low <= high
    ensures SafetyMargin(high, maxPressure) <= SafetyMargin(low, maxPressure)
  {
    var span := maxPressure - AtmPressure;
    DivideKeepsOrder(low - AtmPressure, high - AtmPressure, span);
  }

  /** Between atmosphere and the threshold the margin is the unclamped linear formula. */
  lemma SafetyMarginLinear(pressure: real, maxPressure: real)
    requires AtmPressure <= pressure <= maxPressure && maxPressure > AtmPressure
    ensures SafetyMargin(pressure, maxPressure)
         == 100.0 * (maxPressure - pressure) / (maxPressure - AtmPressure)
  {
    var span := maxPressure - AtmPressure;
    var q := (pressure - AtmPressure) / span;
    assert q * span == pressure - AtmPressure;
    assert (1.0 - q) * span == maxPressure - pressure;
    assert 0.0 <= q <= 1.0;
  }

  /** The bar colour for a margin: green above 70, yellow above 30, red otherwise. */
  function BarColourFor(margin: real): (c: BarColour)
    ensures c != Unstyled
    ensures c == Green <==> margin > 70.0
    ensures c == Red <==> margin <= 30.0
  {
    if margin > 70.0 then Green
    else if margin > 30.0 then Yellow
    else Red
  }

  /** The timer period in milliseconds chosen for a descent rate: faster descents tick more often. */
  function TimerInterval(rate: real): (ms: int)
    ensures ms == 100 || ms == 50 || ms == 20
    ensures ms == 100 <==> rate <= 2.0
    ensures ms == 20 <==> rate > 10.0
  {
    if rate <= 2.0 then 100
    else if rate <= 10.0 then 50
    else 20
  }

  /** A higher rate never gets a longer period. */
  lemma TimerIntervalAntitone(slow: real, fast: real)
    requires slow <= fast
    ensures TimerInterval(fast) <= TimerInterval(slow)
  {
  }

  /** Metres descended in one tick of `interval` milliseconds at `rate` m/s. */
  function StepLength(rate: real, interval: int): (d: real)
    ensures rate >= 0.0 && interval >= 0 ==> d >= 0.0
    ensures rate > 0.0 && interval > 0 ==> d > 0.0
  {
    rate * (interval as real / 1000.0)
  }

  /**
   For every rate the spin box admits, one tick at the period chosen for that
   rate descends between 5 cm and 1 m.
   */
  lemma StepLengthBounds(rate: real)
    requires 0.5 <= rate <= 50.0
    ensures 0.05 <= StepLength(rate, TimerInterval(rate)) <= 1.0
  {
    if rate <= 2.0 {
      assert StepLength(rate, TimerInterval(rate)) == rate * 0.1;
    } else if rate <= 10.0 {
      assert StepLength(rate, TimerInterval(rate)) == rate * 0.05;
    } else {
      assert StepLength(rate, TimerInterval(rate)) == rate * 0.02;
    }
  }
}
