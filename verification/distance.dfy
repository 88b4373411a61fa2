/** The meter-based `Distance` value: one magnitude in meters, named factories and
    accessors per unit, value equality, a total order and additive operators. */
module DotNetDistance {
  import MetricCalculator
  import ImperialCalculator
  import opened Wrappers

  /** A distance held as a single magnitude in meters. */
  datatype Distance = Distance(meters: real) {

    /** The stored magnitude; rebuilding a distance from it gives this one back. */
    function ToMeters(): (m: real)
      ensures Distance(m) == this
    {
      meters
    }

    /** The centimeters count whose meter equivalent is the stored magnitude. */
    function ToCentimeters(): (r: real)
      ensures MetricCalculator.CentimetersToMeters(r) == meters
    {
      MetricCalculator.MetersToCentimeters(meters)
    }

    /** The kilometers count whose meter equivalent is the stored magnitude. */
    function ToKilometers(): (r: real)
      ensures MetricCalculator.KilometersToMeters(r) == meters
    {
      MetricCalculator.MetersToKilometers(meters)
    }

    /** The inches count whose meter equivalent is the stored magnitude. */
    function ToInches(): (r: real)
      ensures ImperialCalculator.InchesToMeters(r) == meters
    {
      ImperialCalculator.MetersToInches(meters)
    }

    /** The feet count whose meter equivalent is the stored magnitude. */
    function ToFeet(): (r: real)
      ensures ImperialCalculator.FeetToMeters(r) == meters
    {
      ImperialCalculator.MetersToFeet(meters)
    }

    /** The yards count whose meter equivalent is the stored magnitude. */
    function ToYards(): (r: real)
      ensures ImperialCalculator.YardsToMeters(r) == meters
    {
      ImperialCalculator.MetersToYards(meters)
    }

    /** Equality with another distance holds exactly when the two are the same value. */
    function Equals(other: Distance): (b: bool)
      ensures b <==> this == other
    {
      meters == other.meters
    }

    /** `Equals(object)`: false for null and for an object of any other type,
        otherwise `Equals(Distance)` on the boxed value. */
    function EqualsObject(obj: Object<Distance>): (b: bool)
      ensures b <==> obj == Instance(this)
    {
      match obj
      case Null => false
      case OtherType => false
      case Instance(d) => Equals(d)
    }

    /** The sign of the comparison of the magnitudes: -1, 0 or 1. */
    function CompareTo(other: Distance): (c: int)
      ensures -1 <= c <= 1
      ensures c < 0 <==> meters < other.meters
      ensures c == 0 <==> this == other
      ensures c > 0 <==> other.meters < meters
    {
      if meters < other.meters then -1
      else if meters == other.meters then 0
      else 1
    }

    /** `CompareTo(object)`: throws for anything that is not a distance (null
        included), otherwise compares with the unboxed distance. */
    function CompareToObject(obj: Object<Distance>): (r: Result<int, Exception>)
      ensures r.Failure? <==> !obj.Instance?
      ensures r.Failure? ==> r.error == InvalidCastException
      ensures obj.Instance? ==> r == Success(CompareTo(obj.value))
    {
      match obj
      case Instance(d) => Success(CompareTo(d))
      case _ => Failure(InvalidCastException)
    }
  }

  /** `FromMeters` stores its argument unchanged. */
  function FromMeters(meters: real): (d: Distance)
    ensures d.ToMeters() == meters
  {
    Distance(meters)
  }

  /** Reading centimeters back gives the argument; 100 cm is one meter. */
  function FromCentimeters(centimeters: real): (d: Distance)
    ensures d.ToCentimeters() == centimeters
    ensures d.ToMeters() * 100.0 == centimeters
  {
    Distance(MetricCalculator.CentimetersToMeters(centimeters))
  }

  /** Reading kilometers back gives the argument; a kilometer is 1000 meters. */
  function FromKilometers(kilometers: real): (d: Distance)
    ensures d.ToKilometers() == kilometers
    ensures d == FromMeters(1000.0 * kilometers)
  {
    Distance(MetricCalculator.KilometersToMeters(kilometers))
  }

  /** Reading inches back gives the argument; an inch is 2.54 cm. */
  function FromInches(inches: real): (d: Distance)
    ensures d.ToInches() == inches
    ensures d == FromCentimeters(2.54 * inches)
  {
    Distance(ImperialCalculator.InchesToMeters(inches))
  }

  /** Reading feet back gives the argument; a foot is twelve inches. */
  function FromFeet(feet: real): (d: Distance)
    ensures d.ToFeet() == feet
    ensures d == FromInches(12.0 * feet)
  {
    Distance(ImperialCalculator.FeetToMeters(feet))
  }

  /** Reading yards back gives the argument; a yard is three feet. */
  function FromYards(yards: real): (d: Distance)
    ensures d.ToYards() == yards
    ensures d == FromFeet(3.0 * yards)
  {
    Distance(ImperialCalculator.YardsToMeters(yards))
  }

  /** Operator `==`: value equality of the magnitudes. */
  function Equal(left: Distance, right: Distance): (b: bool)
    ensures b <==> left.ToMeters() == right.ToMeters()
    ensures b <==> left == right
  {
    left.meters == right.meters
  }

  /** Operator `!=`: the negation of `==`. */
  function NotEqual(left: Distance, right: Distance): (b: bool)
    ensures b <==> left != right
    ensures b == !Equal(left, right)
  {
    !Equal(left, right)
  }

  /** Operator `<`, through `CompareTo`. */
  function Less(d1: Distance, d2: Distance): (b: bool)
    ensures b <==> d1.ToMeters() < d2.ToMeters()
  {
    d1.CompareTo(d2) < 0
  }

  /** Operator `>`, through `CompareTo`. */
  function Greater(d1: Distance, d2: Distance): (b: bool)
    ensures b <==> d2.ToMeters() < d1.ToMeters()
    ensures b <==> Less(d2, d1)
  {
    d1.CompareTo(d2) > 0
  }

  /** Operator `<=`, through `CompareTo`. */
  function AtMost(d1: Distance, d2: Distance): (b: bool)
    ensures b <==> d1.ToMeters() <= d2.ToMeters()
    ensures b <==> Less(d1, d2) || Equal(d1, d2)
  {
    d1.CompareTo(d2) <= 0
  }

  /** Operator `>=`, through `CompareTo`. */
  function AtLeast(d1: Distance, d2: Distance): (b: bool)
    ensures b <==> d2.ToMeters() <= d1.ToMeters()
    ensures b <==> Greater(d1, d2) || Equal(d1, d2)
  {
    d1.CompareTo(d2) >= 0
  }

  /** Operator `-`: the signed difference; there is no floor at zero, so the
      result is shorter than zero exactly when `d1` is shorter than `d2`. */
  function Subtract(d1: Distance, d2: Distance): (r: Distance)
    ensures r.ToMeters() == d1.ToMeters() - d2.ToMeters()
    ensures Less(r, FromMeters(0.0)) <==> Less(d1, d2)
    ensures Equal(r, FromMeters(0.0)) <==> Equal(d1, d2)
  {
    Distance(d1.ToMeters() - d2.ToMeters())
  }

  /** Operator `+`: subtracting either operand from the sum gives back the other. */
  function Add(d1: Distance, d2: Distance): (r: Distance)
    ensures r.ToMeters() == d1.ToMeters() + d2.ToMeters()
    ensures Subtract(r, d2) == d1
    ensures Subtract(r, d1) == d2
  {
    Distance(d1.ToMeters() + d2.ToMeters())
  }

  /** Reading any unit and building the distance back from it is lossless. */
  lemma UnitRoundTrips(d: Distance)
    ensures FromMeters(d.ToMeters()) == d
    ensures FromCentimeters(d.ToCentimeters()) == d
    ensures FromKilometers(d.ToKilometers()) == d
    ensures FromInches(d.ToInches()) == d
    ensures FromFeet(d.ToFeet()) == d
    ensures FromYards(d.ToYards()) == d
  {
  }

  /** Addition is commutative and associative, zero is its identity, and `-`
      undoes `+`. */
  lemma AddLaws(a: Distance, b: Distance, c: Distance)
    ensures Add(a, b) == Add(b, a)
    ensures Add(Add(a, b), c) == Add(a, Add(b, c))
    ensures Add(FromMeters(0.0), a) == a && Add(a, FromMeters(0.0)) == a
    ensures Subtract(Add(a, b), b) == a && Add(Subtract(a, b), b) == a
  {
  }

  /** Subtracting a longer distance gives a negative magnitude, not zero. */
  lemma SubtractHasNoFloor()
    ensures Subtract(FromMeters(1.0), FromMeters(3.0)).ToMeters() == -2.0
  {
  }

  /** Exactly one of `<`, `==` and `>` holds; `>=` is `>` or `==`; `!=` is not `==`. */
  lemma Trichotomy(a: Distance, b: Distance)
    ensures Less(a, b) || Equal(a, b) || Greater(a, b)
    ensures !(Less(a, b) && Equal(a, b))
    ensures !(Less(a, b) && Greater(a, b))
    ensures !(Equal(a, b) && Greater(a, b))
    ensures a.CompareTo(b) == -b.CompareTo(a)
  {
  }

  /** `<=` is a total order: reflexive, antisymmetric, transitive and total. */
  lemma AtMostIsTotalOrder(a: Distance, b: Distance, c: Distance)
    ensures AtMost(a, a)
    ensures AtMost(a, b) && AtMost(b, a) ==> a == b
    ensures AtMost(a, b) && AtMost(b, c) ==> AtMost(a, c)
    ensures AtMost(a, b) || AtMost(b, a)
  {
  }

  /** Two centimeters are more than one, and not less than two. */
  lemma ComparisonExamples()
    ensures Greater(FromCentimeters(2.0), FromCentimeters(1.0))
    ensures !Less(FromCentimeters(2.0), FromCentimeters(1.0))
    ensures AtLeast(FromCentimeters(2.0), FromCentimeters(2.0))
    ensures !AtLeast(FromCentimeters(2.0), FromCentimeters(3.0))
  {
  }
}
