/** ExtendableRange: a mutable [lower, upper] pair of doubles. The queries are
    defined on the Interval value the object holds; the class updates it in place. */
module Ranges {
  import opened Numerics

  /** The bounds an ExtendableRange holds at one moment. */
  datatype Interval = Interval(lower: real, upper: real)

  /** getSize: the interval difference. */
  function Size(r: Interval): real
  {
    r.upper - r.lower
  }

  /** getMean: the midway point. */
  function Mean(r: Interval): real
  {
    (r.lower + r.upper) / 2.0
  }

  /** contains: the policy is half open, [lower, upper[. */
  predicate Contains(r: Interval, v: real)
  {
    v >= r.lower && v < r.upper
  }

  /** extendRange(double): an upper bound below the value is raised to it, a lower bound above it lowered. */
  function ExtendWith(r: Interval, v: real): Interval
  {
    Interval(if v < r.lower then v else r.lower, if v > r.upper then v else r.upper)
  }

  /** extendRange(Range): the same, bound by bound, for another range. */
  function Hull(r: Interval, other: Interval): Interval
  {
    Interval(if other.lower < r.lower then other.lower else r.lower,
             if other.upper > r.upper then other.upper else r.upper)
  }

  /** getClosest: of two values, the one nearer the midpoint lower + size/2; value1 on ties. */
  function Closest(r: Interval, value1: real, value2: real): real
  {
    var midway := r.lower + Size(r) / 2.0;
    if Abs(midway - value1) <= Abs(midway - value2) then value1 else value2
  }

  /** compareTo: -1, 0 or 1 by the lower bound alone. */
  function Compare(r: Interval, other: Interval): int
  {
    if r.lower < other.lower then -1 else if r.lower == other.lower then 0 else 1
  }

  /** A point range, such as the one the limit constructor builds, contains nothing. */
  lemma PointRangeIsEmpty(limit: real, v: real)
    ensures !Contains(Interval(limit, limit), v)
    ensures Size(Interval(limit, limit)) == 0.0 && Mean(Interval(limit, limit)) == limit
  {
  }

  /** Extending by a value puts it between the new bounds and keeps everything already contained. */
  lemma ExtendWithBounds(r: Interval, v: real, w: real)
    ensures ExtendWith(r, v).lower == MinR(r.lower, v) && ExtendWith(r, v).upper == MaxR(r.upper, v)
    ensures ExtendWith(r, v).lower <= v <= ExtendWith(r, v).upper
    ensures Contains(r, w) ==> Contains(ExtendWith(r, v), w)
    ensures r.lower <= r.upper ==> Size(ExtendWith(r, v)) >= Size(r)
  {
  }

  /** extendRange by a value is extendRange by the point range of that value. */
  lemma ExtendWithIsHullOfPoint(r: Interval, v: real)
    ensures ExtendWith(r, v) == Hull(r, Interval(v, v))
  {
  }

  /** The hull contains both ranges and is the least interval reaching both sets of bounds. */
  lemma HullIsLeast(a: Interval, b: Interval, c: Interval, w: real)
    ensures Contains(a, w) || Contains(b, w) ==> Contains(Hull(a, b), w)
    ensures c.lower <= a.lower && c.lower <= b.lower && c.upper >= a.upper && c.upper >= b.upper
            ==> c.lower <= Hull(a, b).lower && Hull(a, b).upper <= c.upper
    ensures Hull(a, b).lower == MinR(a.lower, b.lower) && Hull(a, b).upper == MaxR(a.upper, b.upper)
  {
  }

  /** Extending is idempotent: a second extension by the same range changes nothing. */
  lemma HullIdempotent(a: Interval, b: Interval)
    ensures Hull(Hull(a, b), b) == Hull(a, b)
    ensures Hull(a, a) == a
  {
  }

  /** The midpoint getClosest uses is the mean, and the value it returns is one of the two and no farther from it. */
  lemma ClosestIsNearerTheMean(r: Interval, value1: real, value2: real)
    ensures Closest(r, value1, value2) == value1 || Closest(r, value1, value2) == value2
    ensures Abs(Mean(r) - Closest(r, value1, value2)) <= Abs(Mean(r) - value1)
    ensures Abs(Mean(r) - Closest(r, value1, value2)) <= Abs(Mean(r) - value2)
    ensures Abs(Mean(r) - value1) == Abs(Mean(r) - value2) ==> Closest(r, value1, value2) == value1
  {
    assert r.lower + Size(r) / 2.0 == Mean(r);
  }

  /** compareTo is antisymmetric and ignores the upper bounds, so it disagrees with equals. */
  lemma CompareByLowerOnly(a: Interval, b: Interval, u: real)
    ensures Compare(a, b) == -Compare(b, a)
    ensures Compare(a, b) == Compare(Interval(a.lower, u), b)
    ensures Compare(a, b) == 0 <==> a.lower == b.lower
    ensures Compare(a, b) < 0 <==> a.lower < b.lower
  {
  }

  /** Two ranges with the same lower bound compare as equal although equals tells them apart. */
  lemma CompareCoarserThanEquals()
    ensures Compare(Interval(1.0, 2.0), Interval(1.0, 3.0)) == 0
    ensures Interval(1.0, 2.0) != Interval(1.0, 3.0)
  {
  }

  /** The mutable range object. */
  class ExtendableRange {
    var lowerBounds: real
    var upperBounds: real

    function Bounds(): Interval
      reads this
    {
      Interval(lowerBounds, upperBounds)
    }

    /** The default range [0, 0]. */
    constructor ()
      ensures Bounds() == Interval(0.0, 0.0)
    {
      lowerBounds, upperBounds := 0.0, 0.0;
    }

    /** The range [limit, limit]. */
    constructor FromLimit(limit: real)
      ensures Bounds() == Interval(limit, limit)
    {
      lowerBounds, upperBounds := limit, limit;
    }

    /** The range [lowerBounds, upperBounds], stored as given. */
    constructor FromBounds(lower: real, upper: real)
      ensures Bounds() == Interval(lower, upper)
    {
      lowerBounds, upperBounds := lower, upper;
    }

    method ExtendRange(limit: real)
      modifies this
      ensures Bounds() == ExtendWith(old(Bounds()), limit)
    {
      if limit > upperBounds { upperBounds := limit; }
      if limit < lowerBounds { lowerBounds := limit; }
    }

    method ExtendRangeBy(range: Interval)
      modifies this
      ensures Bounds() == Hull(old(Bounds()), range)
    {
      if range.upper > upperBounds { upperBounds := range.upper; }
      if range.lower < lowerBounds { lowerBounds := range.lower; }
    }
  }
}
