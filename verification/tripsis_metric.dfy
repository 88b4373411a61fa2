/** Metric conversions of the millimeter-based `Distance` (the table its factories
    and accessors call): centimeters, meters and kilometers to and from millimeters. */
module TripsisMetric {

  /** Ten millimeters make each centimeter of the argument. */
  function CentimetersToMillimeters(centimeters: real): (millimeters: real)
    ensures millimeters / 10.0 == centimeters
  {
    centimeters * 10.0
  }

  /** The result is the centimeter count whose millimeter equivalent is `millimeters`. */
  function MillimetersToCentimeters(millimeters: real): (centimeters: real)
    ensures CentimetersToMillimeters(centimeters) == millimeters
  {
    millimeters / 10.0
  }

  /** A meter is a hundred centimeters. */
  function MetersToMillimetres(meters: real): (millimeters: real)
    ensures millimeters == CentimetersToMillimeters(100.0 * meters)
  {
    meters * 1000.0
  }

  /** The result is the meter count whose millimeter equivalent is `millimeters`. */
  function MillimetersToMeters(millimeters: real): (meters: real)
    ensures MetersToMillimetres(meters) == millimeters
  {
    millimeters / 1000.0
  }

  /** The result is the kilometer count whose millimeter equivalent is `millimeters`. */
  function MillimetersToKilometers(millimeters: real): (kilometers: real)
    ensures KilometersToMillimeters(kilometers) == millimeters
  {
    millimeters / 1000000.0
  }

  /** A kilometer is a thousand meters, that is 1,000,000 mm (written 10 * 100 * 1000). */
  function KilometersToMillimeters(kilometers: real): (millimeters: real)
    ensures millimeters == MetersToMillimetres(1000.0 * kilometers)
    ensures millimeters == kilometers * 1000000.0
  {
    kilometers * 10.0 * 100.0 * 1000.0
  }

  /** Each pair of conversions are mutual inverses, in both orders. */
  lemma RoundTrips(x: real)
    ensures MillimetersToCentimeters(CentimetersToMillimeters(x)) == x
    ensures CentimetersToMillimeters(MillimetersToCentimeters(x)) == x
    ensures MillimetersToMeters(MetersToMillimetres(x)) == x
    ensures MetersToMillimetres(MillimetersToMeters(x)) == x
    ensures MillimetersToKilometers(KilometersToMillimeters(x)) == x
    ensures KilometersToMillimeters(MillimetersToKilometers(x)) == x
  {
  }

  /** Every conversion maps zero to zero, is additive and strictly increasing. */
  lemma LinearAndMonotone(a: real, b: real)
    ensures CentimetersToMillimeters(0.0) == 0.0 && MillimetersToCentimeters(0.0) == 0.0
    ensures MetersToMillimetres(0.0) == 0.0 && MillimetersToMeters(0.0) == 0.0
    ensures KilometersToMillimeters(0.0) == 0.0 && MillimetersToKilometers(0.0) == 0.0
    ensures CentimetersToMillimeters(a + b) == CentimetersToMillimeters(a) + CentimetersToMillimeters(b)
    ensures MetersToMillimetres(a + b) == MetersToMillimetres(a) + MetersToMillimetres(b)
    ensures KilometersToMillimeters(a + b) == KilometersToMillimeters(a) + KilometersToMillimeters(b)
    ensures MillimetersToCentimeters(a + b) == MillimetersToCentimeters(a) + MillimetersToCentimeters(b)
    ensures MillimetersToMeters(a + b) == MillimetersToMeters(a) + MillimetersToMeters(b)
    ensures MillimetersToKilometers(a + b) == MillimetersToKilometers(a) + MillimetersToKilometers(b)
    ensures a < b ==> CentimetersToMillimeters(a) < CentimetersToMillimeters(b)
    ensures a < b ==> MillimetersToCentimeters(a) < MillimetersToCentimeters(b)
    ensures a < b ==> MetersToMillimetres(a) < MetersToMillimetres(b)
    ensures a < b ==> MillimetersToMeters(a) < MillimetersToMeters(b)
    ensures a < b ==> KilometersToMillimeters(a) < KilometersToMillimeters(b)
    ensures a < b ==> MillimetersToKilometers(a) < MillimetersToKilometers(b)
  {
  }
}
