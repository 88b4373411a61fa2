/** Imperial conversions of the meter-based `Distance`: inches, feet and yards to and
    from meters. The factors are derived from 2.54 cm per inch, 12 inches per foot
    and 3 feet per yard. */
module ImperialCalculator {
  import MetricCalculator

  const CentimetersPerInch: real := 2.54
  const InchesPerFoot: real := 12.0
  const FeetPerYard: real := 3.0
  const FeetPerMeter: real := MetricCalculator.CentimetersPerMeter / (CentimetersPerInch * InchesPerFoot)
  const InchesPerMeter: real := MetricCalculator.CentimetersPerMeter / CentimetersPerInch

  /** One inch is exactly 0.0254 m. */
  function InchesToMeters(inches: real): (meters: real)
    ensures meters == inches * 0.0254
  {
    inches / InchesPerMeter
  }

  /** The result is the inch count whose meter equivalent is `meters`. */
  function MetersToInches(meters: real): (inches: real)
    ensures InchesToMeters(inches) == meters
  {
    meters * InchesPerMeter
  }

  /** One foot is twelve inches, hence exactly 0.3048 m. */
  function FeetToMeters(feet: real): (meters: real)
    ensures meters == InchesToMeters(InchesPerFoot * feet)
    ensures meters == feet * 0.3048
  {
    feet / FeetPerMeter
  }

  /** The result is the foot count whose meter equivalent is `meters`. */
  function MetersToFeet(meters: real): (feet: real)
    ensures FeetToMeters(feet) == meters
  {
    meters * FeetPerMeter
  }

  /** One yard is three feet. */
  function YardsToMeters(yards: real): (meters: real)
    ensures meters == FeetToMeters(FeetPerYard * yards)
  {
    yards * FeetPerYard / FeetPerMeter
  }

  /** The result is the yard count whose meter equivalent is `meters`. */
  function MetersToYards(meters: real): (yards: real)
    ensures YardsToMeters(yards) == meters
  {
    meters * FeetPerMeter / FeetPerYard
  }

  /** The derived constants are consistent: 100/2.54 inches and 100/30.48 feet
      per meter, twelve times as many inches as feet. */
  lemma DerivedConstants()
    ensures InchesPerMeter * 2.54 == 100.0
    ensures FeetPerMeter * 30.48 == 100.0
    ensures InchesPerMeter == InchesPerFoot * FeetPerMeter
    ensures InchesToMeters(1.0) == 0.0254 && FeetToMeters(1.0) == 0.3048
    ensures YardsToMeters(1.0) == 0.9144
  {
  }

  /** Each pair of conversions are mutual inverses, in both orders. */
  lemma RoundTrips(x: real)
    ensures MetersToInches(InchesToMeters(x)) == x && InchesToMeters(MetersToInches(x)) == x
    ensures MetersToFeet(FeetToMeters(x)) == x && FeetToMeters(MetersToFeet(x)) == x
    ensures MetersToYards(YardsToMeters(x)) == x && YardsToMeters(MetersToYards(x)) == x
  {
  }

  /** Every conversion maps zero to zero and is strictly increasing. */
  lemma ZeroAndMonotone(a: real, b: real)
    ensures InchesToMeters(0.0) == 0.0 && FeetToMeters(0.0) == 0.0 && YardsToMeters(0.0) == 0.0
    ensures MetersToInches(0.0) == 0.0 && MetersToFeet(0.0) == 0.0 && MetersToYards(0.0) == 0.0
    ensures a < b ==> InchesToMeters(a) < InchesToMeters(b) && MetersToInches(a) < MetersToInches(b)
    ensures a < b ==> FeetToMeters(a) < FeetToMeters(b) && MetersToFeet(a) < MetersToFeet(b)
    ensures a < b ==> YardsToMeters(a) < YardsToMeters(b) && MetersToYards(a) < MetersToYards(b)
  {
  }

  /** 112345 m is 4423031.5 inches to one decimal, 368585.958 feet and 122861.986
      yards to three decimals (stated as the rounding intervals). */
  lemma WorkedValues()
    ensures 4423031.45 <= MetersToInches(112345.0) < 4423031.55
    ensures 368585.9575 <= MetersToFeet(112345.0) < 368585.9585
    ensures 122861.9855 <= MetersToYards(112345.0) < 122861.9865
  {
  }
}
