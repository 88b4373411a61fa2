/** Summation of meter-based distances: a left fold with `+`, seeded with the zero
    distance, optionally after projecting each element to a distance. */
module DistanceExtensions {
  import opened DotNetDistance

  /** Reference definition: the arithmetic total of the elements' meters. */
  function TotalMeters(source: seq<Distance>): real
  {
    if source == [] then 0.0 else source[0].ToMeters() + TotalMeters(source[1..])
  }

  /** A left fold of `+` over `source` starting from `seed`; its magnitude is the
      seed's plus the total of the elements. */
  function Aggregate(seed: Distance, source: seq<Distance>): (r: Distance)
    ensures r.ToMeters() == seed.ToMeters() + TotalMeters(source)
    decreases |source|
  {
    if source == [] then seed else Aggregate(Add(seed, source[0]), source[1..])
  }

  /** Projects every element to a distance, in order. */
  function Select<T>(source: seq<T>, selector: T -> Distance): seq<Distance>
  {
    seq(|source|, i requires 0 <= i < |source| => selector(source[i]))
  }

  /** `Sum(source)`: the distance whose magnitude is the total of the elements. */
  function Sum(source: seq<Distance>): (r: Distance)
    ensures r == FromMeters(TotalMeters(source))
  {
    Aggregate(FromMeters(0.0), source)
  }

  /** `Sum(source, selector)`: the distance whose magnitude is the total of the projections. */
  function SumBy<T>(source: seq<T>, selector: T -> Distance): (r: Distance)
    ensures r == FromMeters(TotalMeters(Select(source, selector)))
    ensures source == [] ==> r == FromMeters(0.0)
  {
    Aggregate(FromMeters(0.0), Select(source, selector))
  }

  /** The total of a concatenation is the sum of the totals. */
  lemma {:induction false} TotalMetersConcat(s: seq<Distance>, t: seq<Distance>)
    ensures TotalMeters(s + t) == TotalMeters(s) + TotalMeters(t)
    decreases |s|
  {
    if s == [] {
      assert s + t == t;
    } else {
      assert (s + t)[1..] == s[1..] + t;
      TotalMetersConcat(s[1..], t);
    }
  }

  /** Taking one element out of a sequence takes its meters out of the total. */
  lemma TotalMetersRemove(t: seq<Distance>, i: nat)
    requires i < |t|
    ensures TotalMeters(t) == t[i].ToMeters() + TotalMeters(t[..i] + t[i + 1..])
  {
    var before, after := t[..i], t[i + 1..];
    assert t == before + ([t[i]] + after);
    TotalMetersConcat(before, [t[i]] + after);
    assert ([t[i]] + after)[1..] == after;
    TotalMetersConcat(before, after);
  }

  /** Taking one element out of a sequence takes one occurrence out of its multiset. */
  lemma MultisetRemove(t: seq<Distance>, i: nat)
    requires i < |t|
    ensures multiset(t[..i] + t[i + 1..]) == multiset(t) - multiset{t[i]}
  {
    assert t == t[..i] + [t[i]] + t[i + 1..];
  }

  /** The total does not depend on the order of the elements. */
  lemma {:induction false} TotalMetersPermutation(s: seq<Distance>, t: seq<Distance>)
    requires multiset(s) == multiset(t)
    ensures TotalMeters(s) == TotalMeters(t)
    decreases |s|
  {
    if s == [] {
      assert |t| == |multiset(t)| == 0;
    } else {
      var x := s[0];
      assert s == [x] + s[1..];
      assert x in multiset(t);
      var i :| 0 <= i < |t| && t[i] == x;
      TotalMetersRemove(t, i);
      MultisetRemove(t, i);
      assert multiset(s[1..]) == multiset(s) - multiset{x};
      TotalMetersPermutation(s[1..], t[..i] + t[i + 1..]);
    }
  }

  /** Summing the empty sequence gives the zero distance. */
  lemma SumEmpty()
    ensures Sum([]) == FromMeters(0.0)
  {
  }

  /** Summing 1 m, 2 m and 3 m gives 6 m. */
  lemma SumOneTwoThree()
    ensures Sum([FromMeters(1.0), FromMeters(2.0), FromMeters(3.0)]) == FromMeters(6.0)
  {
    var s := [FromMeters(1.0), FromMeters(2.0), FromMeters(3.0)];
    assert s[1..][1..][1..] == [];
  }

  /** Summing a concatenation is adding the two sums. */
  lemma SumConcat(s: seq<Distance>, t: seq<Distance>)
    ensures Sum(s + t) == Add(Sum(s), Sum(t))
  {
    TotalMetersConcat(s, t);
  }

  /** Reordering the sequence does not change its sum. */
  lemma SumPermutation(s: seq<Distance>, t: seq<Distance>)
    requires multiset(s) == multiset(t)
    ensures Sum(s) == Sum(t)
  {
    TotalMetersPermutation(s, t);
  }

  /** Summing with a selector is the selector's value on the first element added
      to the sum over the rest. */
  lemma SumByCons<T>(x: T, rest: seq<T>, selector: T -> Distance)
    ensures SumBy([x] + rest, selector) == Add(selector(x), SumBy(rest, selector))
  {
    var s := Select([x] + rest, selector);
    assert s[1..] == Select(rest, selector);
  }
}
