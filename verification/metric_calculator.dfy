/** Metric conversions of the meter-based `Distance`: centimeters and kilometers to and
    from meters, each a multiplication or a division by a fixed positive factor. */
module MetricCalculator {

  const MetersPerKilometer: real := 1000.0
  const CentimetersPerMeter: real := 100.0

  /** A hundred centimeters make each meter of the result. */
  function CentimetersToMeters(centimeters: real): (meters: real)
    ensures meters * CentimetersPerMeter == centimeters
  {
    centimeters / CentimetersPerMeter
  }

  /** The result is the centimeter count whose meter equivalent is `meters`. */
  function MetersToCentimeters(meters: real): (centimeters: real)
    ensures CentimetersToMeters(centimeters) == meters
  {
    meters * CentimetersPerMeter
  }

  /** A kilometer is 100,000 centimeters. */
  function KilometersToMeters(kilometers: real): (meters: real)
    ensures meters == CentimetersToMeters(100000.0 * kilometers)
  {
    kilometers * MetersPerKilometer
  }

  /** The result is the kilometer count whose meter equivalent is `meters`. */
  function MetersToKilometers(meters: real): (kilometers: real)
    ensures KilometersToMeters(kilometers) == meters
  {
    meters / MetersPerKilometer
  }

  /** Each pair of conversions are mutual inverses: converting there and back
      returns the argument, in both orders. */
  lemma RoundTrips(x: real)
    ensures MetersToCentimeters(CentimetersToMeters(x)) == x
    ensures CentimetersToMeters(MetersToCentimeters(x)) == x
    ensures KilometersToMeters(MetersToKilometers(x)) == x
    ensures MetersToKilometers(KilometersToMeters(x)) == x
  {
  }

  /** Every conversion is linear: zero maps to zero and sums map to sums. */
  lemma Linear(a: real, b: real)
    ensures CentimetersToMeters(0.0) == 0.0 && MetersToCentimeters(0.0) == 0.0
    ensures KilometersToMeters(0.0) == 0.0 && MetersToKilometers(0.0) == 0.0
    ensures CentimetersToMeters(a + b) == CentimetersToMeters(a) + CentimetersToMeters(b)
    ensures MetersToCentimeters(a + b) == MetersToCentimeters(a) + MetersToCentimeters(b)
    ensures KilometersToMeters(a + b) == KilometersToMeters(a) + KilometersToMeters(b)
    ensures MetersToKilometers(a + b) == MetersToKilometers(a) + MetersToKilometers(b)
  {
  }

  /** Every conversion is strictly increasing, because both factors are positive. */
  lemma StrictlyMonotone(a: real, b: real)
    requires a < b
    ensures CentimetersToMeters(a) < CentimetersToMeters(b)
    ensures MetersToCentimeters(a) < MetersToCentimeters(b)
    ensures KilometersToMeters(a) < KilometersToMeters(b)
    ensures MetersToKilometers(a) < MetersToKilometers(b)
  {
  }

  /** The worked values: 1123.45 m is 112345 cm and 112345678 m is 112345.678 km. */
  lemma WorkedValues()
    ensures MetersToCentimeters(1123.45) == 112345.0
    ensures MetersToKilometers(112345678.0) == 112345.678
  {
  }
}
