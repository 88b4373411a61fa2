/** The imperial table of the millimeter-based lineage: thou, inches, feet, yards,
    chains, furlongs, miles and leagues to and from millimeters. Each unit is defined
    by a literal factor; the postconditions tie each factor to the previous unit. */
module TripsisImperialCalculator {
  import TripsisMetric
  import ImperialCalculator

  /** A thousand thou make one inch of 25.4 mm. */
  function ThouToMillimeters(thou: real): (millimeters: real)
    ensures 1000.0 * millimeters == 25.4 * thou
  {
    thou * 0.0254
  }

  /** The result is the thou count whose millimeter equivalent is `millimeters`. */
  function MillimetersToThou(millimeters: real): (thou: real)
    ensures ThouToMillimeters(thou) == millimeters
  {
    millimeters / 0.0254
  }

  /** An inch is a thousand thou. */
  function InchesToMillimeters(inches: real): (millimeters: real)
    ensures millimeters == ThouToMillimeters(1000.0 * inches)
  {
    inches * 25.4
  }

  /** The result is the inch count whose millimeter equivalent is `millimeters`. */
  function MillimetersToInches(millimeters: real): (inches: real)
    ensures InchesToMillimeters(inches) == millimeters
  {
    millimeters / 25.4
  }

  /** A foot is twelve inches. */
  function FeetToMillimeters(feet: real): (millimeters: real)
    ensures millimeters == InchesToMillimeters(12.0 * feet)
  {
    feet * 304.8
  }

  /** The result is the foot count whose millimeter equivalent is `millimeters`. */
  function MillimetersToFeet(millimeters: real): (feet: real)
    ensures FeetToMillimeters(feet) == millimeters
  {
    millimeters / 304.8
  }

  /** A yard is three feet. */
  function YardsToMillimeters(yards: real): (millimeters: real)
    ensures millimeters == FeetToMillimeters(3.0 * yards)
  {
    yards * 914.4
  }

  /** The result is the yard count whose millimeter equivalent is `millimeters`. */
  function MillimetersToYards(millimeters: real): (yards: real)
    ensures YardsToMillimeters(yards) == millimeters
  {
    millimeters / 914.4
  }

  /** A chain is twenty-two yards. */
  function ChainsToMillimeters(chains: real): (millimeters: real)
    ensures millimeters == YardsToMillimeters(22.0 * chains)
  {
    chains * 20116.8
  }

  /** The result is the chain count whose millimeter equivalent is `millimeters`. */
  function MillimetersToChains(millimeters: real): (chains: real)
    ensures ChainsToMillimeters(chains) == millimeters
  {
    millimeters / 20116.8
  }

  /** A furlong is ten chains. */
  function FurlongsToMillimeters(furlongs: real): (millimeters: real)
    ensures millimeters == ChainsToMillimeters(10.0 * furlongs)
  {
    furlongs * 201168.0
  }

  /** The result is the furlong count whose millimeter equivalent is `millimeters`. */
  function MillimetersToFurlongs(millimeters: real): (furlongs: real)
    ensures FurlongsToMillimeters(furlongs) == millimeters
  {
    millimeters / 201168.0
  }

  /** A mile is eight furlongs. */
  function MilesToMillimeters(miles: real): (millimeters: real)
    ensures millimeters == FurlongsToMillimeters(8.0 * miles)
  {
    miles * 1609344.0
  }

  /** The result is the mile count whose millimeter equivalent is `millimeters`. */
  function MillimetersToMiles(millimeters: real): (miles: real)
    ensures MilesToMillimeters(miles) == millimeters
  {
    millimeters / 1609344.0
  }

  /** The league of this table is 5556 m, three nautical miles of 1852 m. */
  function LeaguesToMillimeters(leagues: real): (millimeters: real)
    ensures millimeters == TripsisMetric.MetersToMillimetres(3.0 * 1852.0 * leagues)
  {
    leagues * 5556000.0
  }

  /** The result is the league count whose millimeter equivalent is `millimeters`. */
  function MillimetersToLeagues(millimeters: real): (leagues: real)
    ensures LeaguesToMillimeters(leagues) == millimeters
  {
    millimeters / 5556000.0
  }

  /** The factors, in millimeters per unit. */
  lemma Factors()
    ensures ThouToMillimeters(1.0) == 0.0254 && InchesToMillimeters(1.0) == 25.4
    ensures FeetToMillimeters(1.0) == 304.8 && YardsToMillimeters(1.0) == 914.4
    ensures ChainsToMillimeters(1.0) == 20116.8 && FurlongsToMillimeters(1.0) == 201168.0
    ensures MilesToMillimeters(1.0) == 1609344.0 && LeaguesToMillimeters(1.0) == 5556000.0
  {
  }

  /** Each pair of conversions are mutual inverses, in both orders. */
  lemma RoundTrips(x: real)
    ensures MillimetersToThou(ThouToMillimeters(x)) == x && ThouToMillimeters(MillimetersToThou(x)) == x
    ensures MillimetersToInches(InchesToMillimeters(x)) == x && InchesToMillimeters(MillimetersToInches(x)) == x
    ensures MillimetersToFeet(FeetToMillimeters(x)) == x && FeetToMillimeters(MillimetersToFeet(x)) == x
    ensures MillimetersToYards(YardsToMillimeters(x)) == x && YardsToMillimeters(MillimetersToYards(x)) == x
    ensures MillimetersToChains(ChainsToMillimeters(x)) == x && ChainsToMillimeters(MillimetersToChains(x)) == x
    ensures MillimetersToFurlongs(FurlongsToMillimeters(x)) == x && FurlongsToMillimeters(MillimetersToFurlongs(x)) == x
    ensures MillimetersToMiles(MilesToMillimeters(x)) == x && MilesToMillimeters(MillimetersToMiles(x)) == x
    ensures MillimetersToLeagues(LeaguesToMillimeters(x)) == x && LeaguesToMillimeters(MillimetersToLeagues(x)) == x
  {
  }

  /** Every conversion maps zero to zero and is strictly increasing. */
  lemma ZeroAndMonotone(a: real, b: real)
    ensures ThouToMillimeters(0.0) == 0.0 && MillimetersToThou(0.0) == 0.0
    ensures InchesToMillimeters(0.0) == 0.0 && MillimetersToInches(0.0) == 0.0
    ensures FeetToMillimeters(0.0) == 0.0 && MillimetersToFeet(0.0) == 0.0
    ensures YardsToMillimeters(0.0) == 0.0 && MillimetersToYards(0.0) == 0.0
    ensures ChainsToMillimeters(0.0) == 0.0 && MillimetersToChains(0.0) == 0.0
    ensures FurlongsToMillimeters(0.0) == 0.0 && MillimetersToFurlongs(0.0) == 0.0
    ensures MilesToMillimeters(0.0) == 0.0 && MillimetersToMiles(0.0) == 0.0
    ensures LeaguesToMillimeters(0.0) == 0.0 && MillimetersToLeagues(0.0) == 0.0
    ensures a < b ==> ThouToMillimeters(a) < ThouToMillimeters(b) && MillimetersToThou(a) < MillimetersToThou(b)
    ensures a < b ==> InchesToMillimeters(a) < InchesToMillimeters(b) && MillimetersToInches(a) < MillimetersToInches(b)
    ensures a < b ==> FeetToMillimeters(a) < FeetToMillimeters(b) && MillimetersToFeet(a) < MillimetersToFeet(b)
    ensures a < b ==> YardsToMillimeters(a) < YardsToMillimeters(b) && MillimetersToYards(a) < MillimetersToYards(b)
    ensures a < b ==> ChainsToMillimeters(a) < ChainsToMillimeters(b) && MillimetersToChains(a) < MillimetersToChains(b)
    ensures a < b ==> FurlongsToMillimeters(a) < FurlongsToMillimeters(b) && MillimetersToFurlongs(a) < MillimetersToFurlongs(b)
    ensures a < b ==> MilesToMillimeters(a) < MilesToMillimeters(b) && MillimetersToMiles(a) < MillimetersToMiles(b)
    ensures a < b ==> LeaguesToMillimeters(a) < LeaguesToMillimeters(b) && MillimetersToLeagues(a) < MillimetersToLeagues(b)
  {
  }

  /** Cross-unit identities: a mile read back in furlongs is eight. */
  lemma CrossUnit()
    ensures MillimetersToFurlongs(MilesToMillimeters(1.0)) == 8.0
    ensures MillimetersToInches(FeetToMillimeters(1.0)) == 12.0
    ensures MillimetersToYards(MilesToMillimeters(1.0)) == 1760.0
  {
  }

  /** Both lineages agree on the inch and the foot: the millimeter table gives a
      thousand times what the meter table gives. */
  lemma AgreesWithMeterTable(x: real)
    ensures InchesToMillimeters(x) == 1000.0 * ImperialCalculator.InchesToMeters(x)
    ensures FeetToMillimeters(x) == 1000.0 * ImperialCalculator.FeetToMeters(x)
    ensures YardsToMillimeters(x) == 1000.0 * ImperialCalculator.YardsToMeters(x)
  {
  }

  /** 112345 mm is 4423031.5 thou to one decimal and 4423.0315 inches to four;
      11234566 mm is 2.02206012 leagues to eight (stated as rounding intervals). */
  lemma WorkedValues()
    ensures 4423031.45 <= MillimetersToThou(112345.0) < 4423031.55
    ensures 4423.03145 <= MillimetersToInches(112345.0) < 4423.03155
    ensures 2.022060115 <= MillimetersToLeagues(11234566.0) < 2.022060125
  {
  }
}
