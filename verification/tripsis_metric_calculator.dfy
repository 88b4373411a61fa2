/** The decimal metric table of the millimeter-based lineage. Over exact numbers each
    of its conversions is the same function as its namesake in `TripsisMetric`. */
module TripsisMetricCalculator {
  import TripsisMetric

  function CentimetersToMillimeters(centimeters: real): (millimeters: real)
    ensures millimeters == TripsisMetric.CentimetersToMillimeters(centimeters)
  {
    centimeters * 10.0
  }

  function MillimetersToCentimeters(millimeters: real): (centimeters: real)
    ensures centimeters == TripsisMetric.MillimetersToCentimeters(millimeters)
  {
    millimeters / 10.0
  }

  function MetersToMillimetres(meters: real): (millimeters: real)
    ensures millimeters == TripsisMetric.MetersToMillimetres(meters)
  {
    meters * 1000.0
  }

  function MillimetersToMeters(millimeters: real): (meters: real)
    ensures meters == TripsisMetric.MillimetersToMeters(millimeters)
  {
    millimeters / 1000.0
  }

  function MillimetersToKilometers(millimeters: real): (kilometers: real)
    ensures kilometers == TripsisMetric.MillimetersToKilometers(millimeters)
  {
    millimeters / 1000000.0
  }

  function KilometersToMillimeters(kilometers: real): (millimeters: real)
    ensures millimeters == TripsisMetric.KilometersToMillimeters(kilometers)
  {
    kilometers * 10.0 * 100.0 * 1000.0
  }

  /** Each pair of conversions are mutual inverses, in both orders; a kilometer
      is 1,000,000 mm. */
  lemma RoundTrips(x: real)
    ensures MillimetersToCentimeters(CentimetersToMillimeters(x)) == x
    ensures CentimetersToMillimeters(MillimetersToCentimeters(x)) == x
    ensures MillimetersToMeters(MetersToMillimetres(x)) == x
    ensures MetersToMillimetres(MillimetersToMeters(x)) == x
    ensures MillimetersToKilometers(KilometersToMillimeters(x)) == x
    ensures KilometersToMillimeters(MillimetersToKilometers(x)) == x
    ensures KilometersToMillimeters(x) == x * 1000000.0
  {
  }

  /** Every conversion maps zero to zero and is additive. */
  lemma Linear(a: real, b: real)
    ensures CentimetersToMillimeters(0.0) == 0.0 && MillimetersToCentimeters(0.0) == 0.0
    ensures MetersToMillimetres(0.0) == 0.0 && MillimetersToMeters(0.0) == 0.0
    ensures KilometersToMillimeters(0.0) == 0.0 && MillimetersToKilometers(0.0) == 0.0
    ensures CentimetersToMillimeters(a + b) == CentimetersToMillimeters(a) + CentimetersToMillimeters(b)
    ensures MillimetersToCentimeters(a + b) == MillimetersToCentimeters(a) + MillimetersToCentimeters(b)
    ensures MetersToMillimetres(a + b) == MetersToMillimetres(a) + MetersToMillimetres(b)
    ensures MillimetersToMeters(a + b) == MillimetersToMeters(a) + MillimetersToMeters(b)
    ensures KilometersToMillimeters(a + b) == KilometersToMillimeters(a) + KilometersToMillimeters(b)
    ensures MillimetersToKilometers(a + b) == MillimetersToKilometers(a) + MillimetersToKilometers(b)
  {
  }
}
