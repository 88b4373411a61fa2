# Distance: a verified model of a linear unit-conversion value type

This project models the `Distance` value type of the dotnet-distance repository in
its two lineages:

- **DotNetDistance** (meter base). `Distance` is a struct holding one magnitude in
  meters. `MetricCalculator` converts centimeters and kilometers to and from meters.
  `ImperialCalculator` converts inches, feet and yards, with factors derived from
  2.54 cm per inch, 12 inches per foot and 3 feet per yard. The operators are `==`,
  `!=`, `+`, `-`, `<`, `>`, `<=` and `>=`, plus `CompareTo` and `Equals`.
  `DistanceExtensions.Sum` folds `+` over a sequence, starting from zero meters.
- **Tripsis.DotNetDistance** (millimeter base). `Distance` is an immutable class
  holding millimeters. It has metric factories and accessors through the `Metric`
  table, null-safe `==`/`!=`, and `+`/`-`. The decimal tables `MetricCalculator` and
  `ImperialCalculator` are modelled too. The imperial table covers thou, inch, foot,
  yard, chain, furlong, mile and league, and no factory of the class uses it.

Every magnitude is a Dafny `real`, so every conversion is exact. A conversion
multiplies or divides by a fixed positive constant. `Distance` is a datatype
wrapping one `real` in each lineage. A Tripsis reference that may be null is an
`Option<Distance>`. An argument typed `object` is a `Wrappers.Object<Distance>`:
null, a distance, or an instance of another type.

Files, one module per source file, plus `Wrappers` for the null, object and exception shapes:
`wrappers.dfy`, `metric_calculator.dfy`, `imperial_calculator.dfy`, `distance.dfy`,
`distance_extensions.dfy`, `tripsis_metric.dfy`, `tripsis_metric_calculator.dfy`,
`tripsis_imperial_calculator.dfy`, `tripsis_distance.dfy`.

Conversion pairs in `MetricCalculator`, `ImperialCalculator`, `TripsisMetric` and
`TripsisImperialCalculator` follow one pattern. The base-to-unit function promises that
converting its result back gives the argument (`ensures XToBase(r) == b`). Most
unit-to-base functions state the unit's size in terms of a smaller or neighbouring
unit (1 km = 100,000 cm, 1 ft = 12 in, 1 mi = 8 furlongs, ...). The smallest unit of
each table has no such neighbour. For it, the contract states how many of it make the
next unit: 100 cm per meter, 10 mm per centimeter, 1000 thou per 25.4 mm. Two units
are stated in meters instead: `ImperialCalculator.InchesToMeters` gives the inch as
exactly 0.0254 m, and `TripsisImperialCalculator.LeaguesToMillimeters` gives the league
as 3 × 1852 m. A `RoundTrips` lemma gives both directions.

The decimal table `TripsisMetricCalculator` is the exception. Each of its six functions
states that it agrees with its `TripsisMetric` namesake, and its round trips are stated
only in its own `RoundTrips` lemma.

`TripsisDistance.ObjectEquals` is not a member of the library. It models the .NET
framework's static `object.Equals(object, object)`, which the millimeter lineage's
`==` and `!=` call.

## Model

| member | source | states |
|---|---|---|
| MetricCalculator.CentimetersToMeters | DotNetDistance/Calcs/MetricCalculator.cs:18-21 | a hundred centimeters make each meter of the result |
| MetricCalculator.KilometersToMeters | DotNetDistance/Calcs/MetricCalculator.cs:52-55 | a kilometer is 100,000 centimeters |
| MetricCalculator.MetersToCentimeters | DotNetDistance/Calcs/MetricCalculator.cs:28-31 | converting the result back to meters gives the argument |
| MetricCalculator.MetersToKilometers | DotNetDistance/Calcs/MetricCalculator.cs:42-45 | converting the result back to meters gives the argument |
| MetricCalculator.RoundTrips | DotNetDistance/Calcs/MetricCalculator.cs:8-55 | cm/m and km/m conversions are mutual inverses in both orders |
| MetricCalculator.Linear | DotNetDistance/Calcs/MetricCalculator.cs:18-55 | every conversion maps 0 to 0 and is additive |
| MetricCalculator.StrictlyMonotone | DotNetDistance/Calcs/MetricCalculator.cs:8-55 | every conversion is strictly increasing |
| MetricCalculator.WorkedValues | DotNetDistance/Calcs/MetricCalculator.cs:28-45 | 1123.45 m is 112345 cm; 112345678 m is 112345.678 km |
| ImperialCalculator.InchesToMeters | DotNetDistance/Calcs/ImperialCalculator.cs:21-24 | dividing by 100/2.54 inches per meter makes an inch exactly 0.0254 m |
| ImperialCalculator.MetersToInches | DotNetDistance/Calcs/ImperialCalculator.cs:31-34 | converting the result back to meters gives the argument |
| ImperialCalculator.FeetToMeters | DotNetDistance/Calcs/ImperialCalculator.cs:45-48 | a foot is 12 inches, exactly 0.3048 m |
| ImperialCalculator.MetersToFeet | DotNetDistance/Calcs/ImperialCalculator.cs:55-58 | converting the result back to meters gives the argument |
| ImperialCalculator.YardsToMeters | DotNetDistance/Calcs/ImperialCalculator.cs:69-72 | a yard is 3 feet |
| ImperialCalculator.MetersToYards | DotNetDistance/Calcs/ImperialCalculator.cs:79-82 | converting the result back to meters gives the argument |
| ImperialCalculator.DerivedConstants | DotNetDistance/Calcs/ImperialCalculator.cs:8-12 | InchesPerMeter = 100/2.54, FeetPerMeter = 100/30.48, InchesPerMeter = 12 * FeetPerMeter |
| ImperialCalculator.RoundTrips | DotNetDistance/Calcs/ImperialCalculator.cs:21-82 | inch, foot and yard conversions are mutual inverses in both orders |
| ImperialCalculator.ZeroAndMonotone | DotNetDistance/Calcs/ImperialCalculator.cs:21-82 | every conversion maps 0 to 0 and is strictly increasing |
| ImperialCalculator.WorkedValues | DotNetDistance/Calcs/ImperialCalculator.cs:31-82 | 112345 m rounds to 4423031.5 in, 368585.958 ft and 122861.986 yd |
| DotNetDistance.Distance.ToMeters | DotNetDistance/Distance.cs:146-149 | the base accessor is lossless: rebuilding from it gives the same distance |
| DotNetDistance.Distance.ToCentimeters | DotNetDistance/Distance.cs:155-158 | the result in centimeters is equivalent to the stored meters |
| DotNetDistance.Distance.ToKilometers | DotNetDistance/Distance.cs:164-167 | the result in kilometers is equivalent to the stored meters |
| DotNetDistance.Distance.ToInches | DotNetDistance/Distance.cs:213-216 | the result in inches is equivalent to the stored meters |
| DotNetDistance.Distance.ToFeet | DotNetDistance/Distance.cs:222-225 | the result in feet is equivalent to the stored meters |
| DotNetDistance.Distance.ToYards | DotNetDistance/Distance.cs:231-234 | the result in yards is equivalent to the stored meters |
| DotNetDistance.Distance.Equals | DotNetDistance/Distance.cs:263-276 | true exactly when the two values are identical (value semantics) |
| DotNetDistance.Distance.EqualsObject | DotNetDistance/Distance.cs:285-303 | false for null or another type, otherwise value equality with the boxed distance |
| DotNetDistance.Distance.CompareTo | DotNetDistance/Distance.cs:320-323 | returns -1, 0 or 1 by the order of the meters; 0 exactly when the values are equal |
| DotNetDistance.Distance.CompareToObject | DotNetDistance/Distance.cs:325-333 | throws InvalidCastException exactly when the argument is not a distance (null included), else compares |
| DotNetDistance.FromMeters | DotNetDistance/Distance.cs:115-118 | stores its argument unchanged |
| DotNetDistance.FromCentimeters | DotNetDistance/Distance.cs:125-129 | reads back as the same centimeters; 100 cm per meter |
| DotNetDistance.FromKilometers | DotNetDistance/Distance.cs:136-140 | reads back as the same kilometers; equals FromMeters(1000 k) |
| DotNetDistance.FromInches | DotNetDistance/Distance.cs:179-183 | reads back as the same inches; equals FromCentimeters(2.54 i) |
| DotNetDistance.FromFeet | DotNetDistance/Distance.cs:191-195 | reads back as the same feet; equals FromInches(12 f) |
| DotNetDistance.FromYards | DotNetDistance/Distance.cs:203-207 | reads back as the same yards; equals FromFeet(3 y) |
| DotNetDistance.Equal | DotNetDistance/Distance.cs:41-49 | `==` holds iff the meters are equal, iff the values are identical |
| DotNetDistance.NotEqual | DotNetDistance/Distance.cs:57-60 | `!=` is exactly the negation of `==` |
| DotNetDistance.Less | DotNetDistance/Distance.cs:91-94 | `<` agrees with `<` on meters |
| DotNetDistance.Greater | DotNetDistance/Distance.cs:86-89 | `>` agrees with `>` on meters and is `<` with the operands swapped |
| DotNetDistance.AtMost | DotNetDistance/Distance.cs:96-99 | `<=` agrees with meters and is `<` or `==` |
| DotNetDistance.AtLeast | DotNetDistance/Distance.cs:101-104 | `>=` agrees with meters and is `>` or `==` |
| DotNetDistance.Subtract | DotNetDistance/Distance.cs:81-84 | the meters of the result are d1's minus d2's, with no floor at zero: negative iff d1 < d2, zero iff d1 == d2 |
| DotNetDistance.Add | DotNetDistance/Distance.cs:69-72 | the meters of the result are the operands' sum; subtracting either operand gives back the other |
| DotNetDistance.UnitRoundTrips | DotNetDistance/Distance.cs:115-234 | reading any unit and rebuilding from it gives back the same distance |
| DotNetDistance.AddLaws | DotNetDistance/Distance.cs:69-84 | `+` is commutative and associative, zero is its identity, `-` undoes `+` |
| DotNetDistance.SubtractHasNoFloor | DotNetDistance/Distance.cs:81-84 | 1 m minus 3 m is -2 m |
| DotNetDistance.Trichotomy | DotNetDistance/Distance.cs:86-104 | exactly one of `<`, `==`, `>` holds; CompareTo is antisymmetric |
| DotNetDistance.AtMostIsTotalOrder | DotNetDistance/Distance.cs:96-99 | `<=` is reflexive, antisymmetric, transitive and total |
| DotNetDistance.ComparisonExamples | DotNetDistance/Distance.cs:86-104 | 2 cm > 1 cm, not 2 cm < 1 cm, 2 cm >= 2 cm, not 2 cm >= 3 cm |
| DistanceExtensions.Aggregate | DotNetDistance/DistanceExtension.cs:16-19 | the left fold of `+` has the seed's meters plus the total of the elements |
| DistanceExtensions.Sum | DotNetDistance/DistanceExtension.cs:16-19 | the sum is the distance of the arithmetic total of the elements' meters |
| DistanceExtensions.SumBy | DotNetDistance/DistanceExtension.cs:9-14 | the meters total of the projections, as a distance; empty gives zero |
| DistanceExtensions.TotalMetersConcat | DotNetDistance/DistanceExtension.cs:16-19 | the total of a concatenation is the sum of the totals |
| DistanceExtensions.TotalMetersPermutation | DotNetDistance/DistanceExtension.cs:16-19 | the total is the same for any reordering |
| DistanceExtensions.SumEmpty | DotNetDistance/DistanceExtension.cs:16-19 | the sum of nothing is FromMeters(0) |
| DistanceExtensions.SumOneTwoThree | DotNetDistance/DistanceExtension.cs:16-19 | 1 m + 2 m + 3 m sums to 6 m |
| DistanceExtensions.SumConcat | DotNetDistance/DistanceExtension.cs:16-19 | Sum(s + t) == Sum(s) + Sum(t) |
| DistanceExtensions.SumPermutation | DotNetDistance/DistanceExtension.cs:16-19 | Sum is invariant under permutation |
| DistanceExtensions.SumByCons | DotNetDistance/DistanceExtension.cs:9-14 | summing with a selector adds the first projection to the sum of the rest |
| TripsisMetric.CentimetersToMillimeters | Tripsis.DotNetDistance/Calcs/Metric.cs:38-41 | ten millimeters make each centimeter of the argument |
| TripsisMetric.MillimetersToCentimeters | Tripsis.DotNetDistance/Calcs/Metric.cs:48-51 | converting the result back to millimeters gives the argument |
| TripsisMetric.MetersToMillimetres | Tripsis.DotNetDistance/Calcs/Metric.cs:62-65 | a meter is 100 centimeters |
| TripsisMetric.MillimetersToMeters | Tripsis.DotNetDistance/Calcs/Metric.cs:72-75 | converting the result back to millimeters gives the argument |
| TripsisMetric.MillimetersToKilometers | Tripsis.DotNetDistance/Calcs/Metric.cs:86-89 | converting the result back to millimeters gives the argument |
| TripsisMetric.KilometersToMillimeters | Tripsis.DotNetDistance/Calcs/Metric.cs:96-99 | a kilometer is 1000 meters; the product 10*100*1000 is 1,000,000 |
| TripsisMetric.RoundTrips | Tripsis.DotNetDistance/Calcs/Metric.cs:38-99 | every pair of conversions are mutual inverses in both orders |
| TripsisMetric.LinearAndMonotone | Tripsis.DotNetDistance/Calcs/Metric.cs:38-99 | every conversion maps 0 to 0, is additive and strictly increasing |
| TripsisMetricCalculator.CentimetersToMillimeters | Tripsis.DotNetDistance/Calcs/MetricCalculator.cs:38-41 | agrees with the Metric namesake |
| TripsisMetricCalculator.MillimetersToCentimeters | Tripsis.DotNetDistance/Calcs/MetricCalculator.cs:48-51 | agrees with the Metric namesake |
| TripsisMetricCalculator.MetersToMillimetres | Tripsis.DotNetDistance/Calcs/MetricCalculator.cs:62-65 | agrees with the Metric namesake |
| TripsisMetricCalculator.MillimetersToMeters | Tripsis.DotNetDistance/Calcs/MetricCalculator.cs:72-75 | agrees with the Metric namesake |
| TripsisMetricCalculator.MillimetersToKilometers | Tripsis.DotNetDistance/Calcs/MetricCalculator.cs:86-89 | agrees with the Metric namesake |
| TripsisMetricCalculator.KilometersToMillimeters | Tripsis.DotNetDistance/Calcs/MetricCalculator.cs:96-99 | agrees with the Metric namesake |
| TripsisMetricCalculator.RoundTrips | Tripsis.DotNetDistance/Calcs/MetricCalculator.cs:38-99 | mutual inverses in both orders; a kilometer is 1,000,000 mm |
| TripsisMetricCalculator.Linear | Tripsis.DotNetDistance/Calcs/MetricCalculator.cs:38-99 | every conversion maps 0 to 0 and is additive |
| TripsisImperialCalculator.ThouToMillimeters | Tripsis.DotNetDistance/Calcs/ImperialCalculator.cs:38-41 | a thousand thou make one inch of 25.4 mm |
| TripsisImperialCalculator.MillimetersToThou | Tripsis.DotNetDistance/Calcs/ImperialCalculator.cs:48-51 | converting the result back to millimeters gives the argument |
| TripsisImperialCalculator.InchesToMillimeters | Tripsis.DotNetDistance/Calcs/ImperialCalculator.cs:62-65 | an inch is 1000 thou |
| TripsisImperialCalculator.MillimetersToInches | Tripsis.DotNetDistance/Calcs/ImperialCalculator.cs:72-75 | converting the result back to millimeters gives the argument |
| TripsisImperialCalculator.FeetToMillimeters | Tripsis.DotNetDistance/Calcs/ImperialCalculator.cs:86-89 | a foot is 12 inches |
| TripsisImperialCalculator.MillimetersToFeet | Tripsis.DotNetDistance/Calcs/ImperialCalculator.cs:96-99 | converting the result back to millimeters gives the argument |
| TripsisImperialCalculator.YardsToMillimeters | Tripsis.DotNetDistance/Calcs/ImperialCalculator.cs:110-113 | a yard is 3 feet |
| TripsisImperialCalculator.MillimetersToYards | Tripsis.DotNetDistance/Calcs/ImperialCalculator.cs:120-123 | converting the result back to millimeters gives the argument |
| TripsisImperialCalculator.ChainsToMillimeters | Tripsis.DotNetDistance/Calcs/ImperialCalculator.cs:134-137 | a chain is 22 yards |
| TripsisImperialCalculator.MillimetersToChains | Tripsis.DotNetDistance/Calcs/ImperialCalculator.cs:144-147 | converting the result back to millimeters gives the argument |
| TripsisImperialCalculator.FurlongsToMillimeters | Tripsis.DotNetDistance/Calcs/ImperialCalculator.cs:158-161 | a furlong is 10 chains |
| TripsisImperialCalculator.MillimetersToFurlongs | Tripsis.DotNetDistance/Calcs/ImperialCalculator.cs:168-171 | converting the result back to millimeters gives the argument |
| TripsisImperialCalculator.MilesToMillimeters | Tripsis.DotNetDistance/Calcs/ImperialCalculator.cs:182-185 | a mile is 8 furlongs |
| TripsisImperialCalculator.MillimetersToMiles | Tripsis.DotNetDistance/Calcs/ImperialCalculator.cs:192-195 | converting the result back to millimeters gives the argument |
| TripsisImperialCalculator.LeaguesToMillimeters | Tripsis.DotNetDistance/Calcs/ImperialCalculator.cs:206-209 | a league is 5556 m, three nautical miles of 1852 m |
| TripsisImperialCalculator.MillimetersToLeagues | Tripsis.DotNetDistance/Calcs/ImperialCalculator.cs:216-219 | converting the result back to millimeters gives the argument |
| TripsisImperialCalculator.Factors | Tripsis.DotNetDistance/Calcs/ImperialCalculator.cs:38-219 | the factors are 0.0254, 25.4, 304.8, 914.4, 20116.8, 201168, 1609344 and 5556000 mm |
| TripsisImperialCalculator.RoundTrips | Tripsis.DotNetDistance/Calcs/ImperialCalculator.cs:38-219 | every pair of conversions are mutual inverses in both orders |
| TripsisImperialCalculator.ZeroAndMonotone | Tripsis.DotNetDistance/Calcs/ImperialCalculator.cs:38-219 | every conversion maps 0 to 0 and is strictly increasing |
| TripsisImperialCalculator.CrossUnit | Tripsis.DotNetDistance/Calcs/ImperialCalculator.cs:86-195 | a mile is 8 furlongs and 1760 yards; a foot is 12 inches |
| TripsisImperialCalculator.AgreesWithMeterTable | Tripsis.DotNetDistance/Calcs/ImperialCalculator.cs:62-113 | inches, feet and yards in mm are 1000 times the meter lineage's values |
| TripsisImperialCalculator.WorkedValues | Tripsis.DotNetDistance/Calcs/ImperialCalculator.cs:48-219 | 112345 mm rounds to 4423031.5 thou and 4423.0315 in; 11234566 mm to 2.02206012 leagues |
| TripsisDistance.Distance.ToMillimeters | Tripsis.DotNetDistance/Distance.cs:156-159 | the base accessor is lossless: rebuilding from it gives the same distance |
| TripsisDistance.Distance.ToCentimeters | Tripsis.DotNetDistance/Distance.cs:165-168 | the result in centimeters is equivalent to the stored millimeters |
| TripsisDistance.Distance.ToMeters | Tripsis.DotNetDistance/Distance.cs:174-177 | the result in meters is equivalent to the stored millimeters |
| TripsisDistance.Distance.ToKilometers | Tripsis.DotNetDistance/Distance.cs:183-186 | the result in kilometers is equivalent to the stored millimeters |
| TripsisDistance.Distance.Equals | Tripsis.DotNetDistance/Distance.cs:215-228 | false for null, otherwise true exactly for an identical value |
| TripsisDistance.Distance.EqualsObject | Tripsis.DotNetDistance/Distance.cs:237-255 | false for null or another type, otherwise value equality |
| TripsisDistance.Equal | Tripsis.DotNetDistance/Distance.cs:65-68 | null-safe `==`: two nulls equal, one null unequal, two instances equal iff their millimeters are |
| TripsisDistance.NotEqual | Tripsis.DotNetDistance/Distance.cs:76-79 | `!=` is exactly the negation of `==` |
| TripsisDistance.FromMilliimeters | Tripsis.DotNetDistance/Distance.cs:114-117 | stores the whole number of millimeters unchanged |
| TripsisDistance.FromCentimeters | Tripsis.DotNetDistance/Distance.cs:124-128 | stores 10 mm per centimeter and reads back as the same centimeters |
| TripsisDistance.FromMeters | Tripsis.DotNetDistance/Distance.cs:135-139 | reads back as the same meters; equals FromCentimeters(100 m) |
| TripsisDistance.FromKilometers | Tripsis.DotNetDistance/Distance.cs:146-150 | reads back as the same kilometers; equals FromMeters(1000 k) |
| TripsisDistance.Subtract | Tripsis.DotNetDistance/Distance.cs:100-103 | the millimeters of the result are d1's minus d2's, with no floor at zero: negative iff d1 is shorter, zero iff equal |
| TripsisDistance.Add | Tripsis.DotNetDistance/Distance.cs:88-91 | the millimeters of the result are the operands' sum; subtracting either operand gives back the other |
| TripsisDistance.UnitRoundTrips | Tripsis.DotNetDistance/Distance.cs:124-186 | reading any unit and rebuilding from it gives back the same distance |
| TripsisDistance.StoredMagnitudes | Tripsis.DotNetDistance/Distance.cs:124-186 | factories store 10, 1000 and 1,000,000 mm per unit; 100 cm == 1 m; 112345 mm is 11234.5 cm |
| TripsisDistance.AddLaws | Tripsis.DotNetDistance/Distance.cs:88-103 | `+` is commutative and associative, zero is its identity, `-` undoes `+` |
| TripsisDistance.NullEquality | Tripsis.DotNetDistance/Distance.cs:65-79 | `==` with null on one side is false, with null on both sides true; Equals rejects null and other types |

## Left out

- Floating-point (`double`) and `decimal` rounding: every magnitude is an exact real. Round trips that hold only up to rounding in the code are exact here, and the low-order differences between the double `Metric` table and the decimal `MetricCalculator` table do not exist in the model.
- TripsisMetricCalculator and TripsisImperialCalculator: the `System.OverflowException` that C# `decimal` arithmetic throws when a result goes past about 7.9 x 10^28 is not modelled; every real input yields a real result.
- NaN and infinities, including the NaN ordering of `double.CompareTo`: a real is always finite and ordered.
- The `ReferenceEquals` checks inside the struct's `==` and `Equals`: boxing makes them always false, so they reduce to value comparison.
- `GetHashCode` of both lineages: it depends on the run-time hash of `double`.
- `ToString` of both lineages ("{0} m", "{0} mm"): culture-dependent number formatting for debugging only.
- Null arguments of `Sum`: `Select` and `Aggregate` throw `ArgumentNullException` when the source or the selector is null. A `seq` and a function value cannot be null, so the model has no such case.
- LINQ laziness of `Sum`: a source is a finite `seq`, and `Select` is an eager projection.
- Reference identity of the Tripsis class: it is immutable and all its equality is by value, so it is a datatype. A subclass instance passed to `Equals(object)` is not modelled.
- Null operands of Tripsis `+` and `-`: the code throws `NullReferenceException`; the model takes non-null operands.
- TripsisDistance.FromMilliimeters: does not model the rounding of a `long` above 2^53 when it is converted to `double`.
- Imperial factories on the Tripsis class (`FromThou`, `FromChains`, ...): they are not part of the class as modelled, so the imperial table stands alone.
- The compound assignments `+=` and `-=`: C# derives them from `+` and `-`.
- The Tripsis lineage has no ordering operators, so the total order is proved for the meter lineage only.
