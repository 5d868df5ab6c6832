/**
 * Conversion of a gas register delta over a period into a power rate in kW,
 * as `LoopEnergy._update_gas` computes it. Python 3 true division is assumed
 * and floating point is modelled by `real`.
 */
module GasRate {

  /** The single fixed conversion factor of the client (11.11). */
  const ConversionFactor: real := 11.11

  /** Seconds between two device timestamps, expressed in hours. */
  function PeriodHours(seconds: int): (h: real)
    ensures h * 3600.0 == seconds as real
    ensures (h == 0.0) <==> (seconds == 0)
  {
    seconds as real / (60.0 * 60.0)
  }

  /**
   * The gas rate for `gasUsed` register units consumed over `period` hours.
   * The period must not be zero (the client guarantees this by discarding
   * samples whose timestamp repeats); a negative delta is not clamped.
   */
  function GasKw(gasUsed: int, period: real): (r: real)
    requires period != 0.0
    ensures r * period * 1000.0 == ConversionFactor * gasUsed as real
    ensures period > 0.0 ==> ((r < 0.0 <==> gasUsed < 0) && (r == 0.0 <==> gasUsed == 0))
  {
    (ConversionFactor * gasUsed as real / period) / 1000.0
  }

  /** The rate over two readings taken `seconds` apart, in one formula. */
  lemma GasKwOverSeconds(gasUsed: int, seconds: int)
    requires seconds != 0
    ensures GasKw(gasUsed, PeriodHours(seconds)) * seconds as real == 39.996 * gasUsed as real
  {
  }

  /** Ten register units over one hour give 0.1111 kW. */
  lemma OneHourExample()
    ensures GasKw(12830 - 12820, PeriodHours(1459351800 - 1459348200)) == 0.1111
  {
  }
}
