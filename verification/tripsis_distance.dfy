/** The millimeter-based `Distance`: an immutable value holding one magnitude in
    millimeters, metric factories and accessors through `TripsisMetric`, null-safe
    equality operators and additive operators. A reference that may be null is an
    `Option<Distance>`. */
module TripsisDistance {
  import TripsisMetric
  import opened Wrappers

  /** The range of a C# `long`, the parameter type of `FromMilliimeters`. */
  newtype Int64 = x: int | -0x8000_0000_0000_0000 <= x < 0x8000_0000_0000_0000

  /** A distance held as a single magnitude in millimeters. */
  datatype Distance = Distance(millimeters: real) {

    /** The stored magnitude; rebuilding a distance from it gives this one back. */
    function ToMillimeters(): (mm: real)
      ensures Distance(mm) == this
    {
      millimeters
    }

    /** The centimeters count whose millimeter equivalent is the stored magnitude. */
    function ToCentimeters(): (r: real)
      ensures TripsisMetric.CentimetersToMillimeters(r) == millimeters
    {
      TripsisMetric.MillimetersToCentimeters(millimeters)
    }

    /** The meters count whose millimeter equivalent is the stored magnitude. */
    function ToMeters(): (r: real)
      ensures TripsisMetric.MetersToMillimetres(r) == millimeters
    {
      TripsisMetric.MillimetersToMeters(millimeters)
    }

    /** The kilometers count whose millimeter equivalent is the stored magnitude. */
    function ToKilometers(): (r: real)
      ensures TripsisMetric.KilometersToMillimeters(r) == millimeters
    {
      TripsisMetric.MillimetersToKilometers(millimeters)
    }

    /** `Equals(Distance)`: false for null, otherwise value equality. */
    function Equals(other: Option<Distance>): (b: bool)
      ensures b <==> other == Some(this)
    {
      match other
      case None => false
      case Some(d) => millimeters == d.millimeters
    }

    /** `Equals(object)`: false for null and for an object of any other type,
        otherwise `Equals(Distance)`. */
    function EqualsObject(obj: Object<Distance>): (b: bool)
      ensures b <==> obj == Instance(this)
    {
      match obj
      case Null => false
      case OtherType => false
      case Instance(d) => Equals(Some(d))
    }
  }

  /** `object.Equals(left, right)`: two nulls are equal, one null is unequal to
      anything else, and two instances are compared with the virtual `Equals`. */
  function ObjectEquals(left: Option<Distance>, right: Option<Distance>): bool
  {
    match (left, right)
    case (None, None) => true
    case (Some(l), Some(r)) => l.EqualsObject(Instance(r))
    case _ => false
  }

  /** Operator `==`: null-safe value equality. */
  function Equal(left: Option<Distance>, right: Option<Distance>): (b: bool)
    ensures b <==> left == right
    ensures left.Some? && right.Some? ==> (b <==> left.value.ToMillimeters() == right.value.ToMillimeters())
  {
    ObjectEquals(left, right)
  }

  /** Operator `!=`: the negation of `==`. */
  function NotEqual(left: Option<Distance>, right: Option<Distance>): (b: bool)
    ensures b <==> left != right
    ensures b == !Equal(left, right)
  {
    !ObjectEquals(left, right)
  }

  /** `FromMilliimeters`: stores the whole number of millimeters unchanged. */
  function FromMilliimeters(millimeters: Int64): (d: Distance)
    ensures d.ToMillimeters() == millimeters as real
  {
    Distance(millimeters as real)
  }

  /** Reading centimeters back gives the argument; a centimeter is 10 mm. */
  function FromCentimeters(centimeters: real): (d: Distance)
    ensures d.ToCentimeters() == centimeters
    ensures d.ToMillimeters() == 10.0 * centimeters
  {
    Distance(TripsisMetric.CentimetersToMillimeters(centimeters))
  }

  /** Reading meters back gives the argument; a meter is a hundred centimeters. */
  function FromMeters(meters: real): (d: Distance)
    ensures d.ToMeters() == meters
    ensures d == FromCentimeters(100.0 * meters)
  {
    Distance(TripsisMetric.MetersToMillimetres(meters))
  }

  /** Reading kilometers back gives the argument; a kilometer is a thousand meters. */
  function FromKilometers(kilometers: real): (d: Distance)
    ensures d.ToKilometers() == kilometers
    ensures d == FromMeters(1000.0 * kilometers)
  {
    Distance(TripsisMetric.KilometersToMillimeters(kilometers))
  }

  /** Operator `-`: the signed difference of the magnitudes, with no floor at
      zero: it is negative exactly when `d1` is shorter. */
  function Subtract(d1: Distance, d2: Distance): (r: Distance)
    ensures r.ToMillimeters() == d1.ToMillimeters() - d2.ToMillimeters()
    ensures r.ToMillimeters() < 0.0 <==> d1.ToMillimeters() < d2.ToMillimeters()
    ensures r.ToMillimeters() == 0.0 <==> d1 == d2
  {
    Distance(d1.ToMillimeters() - d2.ToMillimeters())
  }

  /** Operator `+`: subtracting either operand from the sum gives back the other. */
  function Add(d1: Distance, d2: Distance): (r: Distance)
    ensures r.ToMillimeters() == d1.ToMillimeters() + d2.ToMillimeters()
    ensures Subtract(r, d2) == d1
    ensures Subtract(r, d1) == d2
  {
    Distance(d1.ToMillimeters() + d2.ToMillimeters())
  }

  /** Reading any unit and building the distance back from it is lossless. */
  lemma UnitRoundTrips(d: Distance)
    ensures Distance(d.ToMillimeters()) == d
    ensures FromCentimeters(d.ToCentimeters()) == d
    ensures FromMeters(d.ToMeters()) == d
    ensures FromKilometers(d.ToKilometers()) == d
  {
  }

  /** The factories store 10, 1000 and 1,000,000 mm per unit, so 100 cm and 1 m
      are the same distance, and 1 m reads back as 1000 mm. */
  lemma StoredMagnitudes(v: real)
    ensures FromCentimeters(v).ToMillimeters() == v * 10.0
    ensures FromMeters(v).ToMillimeters() == v * 1000.0
    ensures FromKilometers(v).ToMillimeters() == v * 1000000.0
    ensures Equal(Some(FromCentimeters(100.0)), Some(FromMeters(1.0)))
    ensures FromMeters(1.0).ToMillimeters() == 1000.0
    ensures Distance(112345.0).ToCentimeters() == 11234.5
  {
  }

  /** Addition is commutative and associative, the zero distance is its identity,
      and `-` undoes `+`. */
  lemma AddLaws(a: Distance, b: Distance, c: Distance)
    ensures Add(a, b) == Add(b, a)
    ensures Add(Add(a, b), c) == Add(a, Add(b, c))
    ensures Add(Distance(0.0), a) == a
    ensures Subtract(Add(a, b), b) == a && Add(Subtract(a, b), b) == a
  {
  }

  /** Null handling of `==`: two nulls are equal, a null and an instance are not. */
  lemma NullEquality(d: Distance)
    ensures Equal(None, None)
    ensures !Equal(None, Some(d)) && !Equal(Some(d), None)
    ensures NotEqual(None, Some(d))
    ensures !d.Equals(None) && !d.EqualsObject(Null) && !d.EqualsObject(OtherType)
  {
  }
}
