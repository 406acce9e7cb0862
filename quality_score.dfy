/**
 * The quality score the synthetic history assigns to a batch: 100 minus the
 * distances of temperature and pressure from their nominal values and five
 * times the distance of pH from neutral.  Drawing the random readings is not
 * modelled.
 */
module QualityScore {
  import opened Common

  const NominalTemperature: real := 180.0
  const NominalPressure: real := 30.0
  const NominalPh: real := 7.0
  /** Each unit of pH away from neutral costs this many points. */
  const PhWeight: real := 5.0
  const MaxQuality: real := 100.0

  function Quality(b: Batch): (q: real)
    ensures q <= MaxQuality
    ensures q == MaxQuality <==>
      b.temperature == NominalTemperature && b.pressure == NominalPressure && b.ph == NominalPh
  {
    MaxQuality - Abs(b.temperature - NominalTemperature) - Abs(b.pressure - NominalPressure)
      - Abs(b.ph - NominalPh) * PhWeight
  }

  /** Mixing speed and energy use do not enter the score. */
  lemma QualityIgnoresSpeedAndEnergy(b: Batch, speed: real, energy: real)
    ensures Quality(b.(mixingSpeed := speed, energyUsed := energy)) == Quality(b)
  {
  }

  /**
   * Moving a reading `d` away from its nominal value costs |d| points for
   * temperature and pressure and 5|d| for pH, whichever side it moves to.
   */
  lemma QualityPenalty(b: Batch, d: real)
    ensures Quality(b.(temperature := NominalTemperature + d))
         == Quality(b.(temperature := NominalTemperature)) - Abs(d)
    ensures Quality(b.(pressure := NominalPressure + d))
         == Quality(b.(pressure := NominalPressure)) - Abs(d)
    ensures Quality(b.(ph := NominalPh + d))
         == Quality(b.(ph := NominalPh)) - PhWeight * Abs(d)
  {
  }

  /** The score is symmetric about each nominal value. */
  lemma QualitySymmetric(b: Batch, d: real)
    ensures Quality(b.(temperature := NominalTemperature + d)) == Quality(b.(temperature := NominalTemperature - d))
    ensures Quality(b.(pressure := NominalPressure + d)) == Quality(b.(pressure := NominalPressure - d))
    ensures Quality(b.(ph := NominalPh + d)) == Quality(b.(ph := NominalPh - d))
  {
  }

  /** Moving any one of the three scored readings further from nominal never raises the score. */
  lemma QualityMonotone(b: Batch, p: Param, v: real)
    requires p == Temperature || p == Pressure || p == Ph
    requires Abs(b.Get(p) - Nominal(p)) <= Abs(v - Nominal(p))
    ensures Quality(b.With(p, v)) <= Quality(b)
  {
  }

  function Nominal(p: Param): real
    requires p == Temperature || p == Pressure || p == Ph
  {
    match p
    case Temperature => NominalTemperature
    case Pressure => NominalPressure
    case Ph => NominalPh
  }
}
