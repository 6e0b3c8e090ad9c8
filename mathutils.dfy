/** MathUtils: tolerance ranges, the median of a sorted array, rounding, closeness and the
    trapezoid area of a profile. */
module MathUtils {
  import opened Wrappers
  import opened Numerics
  import opened Constants
  import opened Ranges
  import opened Points

  /** getRangeFromAbs: [x - abs, x + abs]. */
  function RangeFromAbs(x: real, abs: real): (r: Interval)
    ensures Mean(r) == x && Size(r) == 2.0 * abs
  {
    Interval(x - abs, x + abs)
  }

  /** getAbsTolerance: x * abs / 10^6, the absolute width of a ppm tolerance. */
  function AbsTolerance(x: real, ppm: real): (r: real)
    ensures r * PPM == x * ppm
    ensures 0.0 <= x && 0.0 <= ppm ==> 0.0 <= r
  {
    x * ppm / PPM
  }

  /** getRangeFromPPM: the absolute range for ppm * x / 10^6. */
  function RangeFromPPM(x: real, ppm: real): (r: Interval)
    ensures r == RangeFromAbs(x, AbsTolerance(x, ppm))
  {
    RangeFromAbs(x, ppm * x / PPM)
  }

  /** The tolerance ranges are centred on x and 2 * abs wide; the ppm range is the absolute range of
      getAbsTolerance and the same range XYPoint.getRange builds. */
  lemma ToleranceRanges(x: real, abs: real, ppm: real, y: real)
    ensures Mean(RangeFromAbs(x, abs)) == x && Size(RangeFromAbs(x, abs)) == 2.0 * abs
    ensures Contains(RangeFromAbs(x, abs), x) <==> abs > 0.0
    ensures RangeFromPPM(x, ppm) == RangeFromAbs(x, AbsTolerance(x, ppm))
    ensures RangeFromPPM(x, ppm) == PointRange(XYPoint(x, y), ppm)
  {
    assert ppm * x == x * ppm;
  }

  predicate Sorted(s: seq<real>)
  {
    forall i, j :: 0 <= i < j < |s| ==> s[i] <= s[j]
  }

  /** getMedian as written: an even length takes element length/2; an odd length averages the
      elements at floor and ceil of length/2, which integer division has already made the same index.
      An empty array fails with ArrayIndexOutOfBoundsException at the read of index 0. */
  function MedianAsWritten(s: seq<real>): (r: Result<real>)
    ensures r.Failure? <==> |s| == 0
  {
    var len := |s|;
    if len % 2 == 0 then
      if len / 2 < len then Success(s[len / 2]) else Failure("ArrayIndexOutOfBoundsException")
    else
      var low := len / 2;
      var high := len / 2;
      Success((s[low] + s[high]) / 2.0)
  }

  /** Both parities return the element at index length/2, the upper middle for an even length. */
  lemma MedianAsWrittenIsUpperMiddle(s: seq<real>)
    requires |s| > 0
    ensures MedianAsWritten(s) == Success(s[|s| / 2])
  {
  }

  /** The median as evidently intended: the middle element, or the mean of the two middle elements. */
  function Median(s: seq<real>): real
    requires |s| > 0
  {
    var len := |s|;
    if len % 2 == 1 then s[len / 2] else (s[len / 2 - 1] + s[len / 2]) / 2.0
  }

  function NegatedReverse(s: seq<real>): (r: seq<real>)
    ensures |r| == |s| && forall i :: 0 <= i < |s| ==> r[i] == -s[|s| - 1 - i]
  {
    seq(|s|, i requires 0 <= i < |s| => -s[|s| - 1 - i])
  }

  /** Mirroring the values mirrors the median, and for a sorted array it splits it in halves. */
  lemma {:induction false} MedianIsSymmetric(s: seq<real>)
    requires |s| > 0
    ensures Median(NegatedReverse(s)) == -Median(s)
    ensures Sorted(s) ==> forall i :: 0 <= i < |s| / 2 ==> s[i] <= Median(s)
    ensures Sorted(s) ==> forall i :: |s| - |s| / 2 <= i < |s| ==> Median(s) <= s[i]
  {
    var n := |s|;
    var t := NegatedReverse(s);
    if n % 2 == 1 {
      assert n - 1 - n / 2 == n / 2;
      assert t[n / 2] == -s[n / 2];
    } else {
      assert n - 1 - (n / 2 - 1) == n / 2 && n - 1 - n / 2 == n / 2 - 1;
      assert t[n / 2 - 1] == -s[n / 2] && t[n / 2] == -s[n / 2 - 1];
    }
    if Sorted(s) {
      forall i | 0 <= i < n / 2
        ensures s[i] <= Median(s)
      {
        assert s[i] <= s[n / 2 - 1] && s[i] <= s[n / 2];
      }
      forall i | n - n / 2 <= i < n
        ensures Median(s) <= s[i]
      {
        assert s[n / 2] <= s[i];
        if n / 2 > 0 { assert s[n / 2 - 1] <= s[i]; }
      }
    }
  }

  /** getMedian on an even length reports the upper middle, which is not mirror-symmetric. */
  lemma MedianAsWrittenEvenCase()
    ensures MedianAsWritten([1.0, 2.0]) == Success(2.0)
    ensures Median([1.0, 2.0]) == 1.5
    ensures MedianAsWritten(NegatedReverse([1.0, 2.0])) != Success(-2.0)
  {
    assert NegatedReverse([1.0, 2.0]) == [-2.0, -1.0];
  }

  /** roundToThreeDecimals: (int)(value * 1000) / 1000.0. */
  function RoundToThreeDecimals(value: real): (r: real)
    ensures r * 1000.0 == JavaIntOfReal(value * 1000.0) as real
  {
    (JavaIntOfReal(value * 1000.0) as real) / 1000.0
  }

  /** Inside the int range the rounding truncates toward zero at the third decimal: it keeps the sign,
      never grows the magnitude, moves by less than 0.001 and is idempotent. */
  lemma RoundTruncates(value: real)
    requires INT_MIN <= Trunc(value * 1000.0) <= INT_MAX
    ensures Abs(RoundToThreeDecimals(value)) <= Abs(value)
    ensures Abs(value - RoundToThreeDecimals(value)) < 0.001
    ensures (value >= 0.0 ==> RoundToThreeDecimals(value) >= 0.0) && (value <= 0.0 ==> RoundToThreeDecimals(value) <= 0.0)
    ensures RoundToThreeDecimals(RoundToThreeDecimals(value)) == RoundToThreeDecimals(value)
  {
    var k := Trunc(value * 1000.0);
    var r := (k as real) / 1000.0;
    assert RoundToThreeDecimals(value) == r;
    assert r * 1000.0 == k as real;
    assert Trunc(k as real) == k;
  }

  /** isAbsClosest: value1 is no farther from the target than value2. */
  predicate IsAbsClosest(target: real, value1: real, value2: real)
    ensures value1 == target || value1 == value2 ==> IsAbsClosest(target, value1, value2)
    ensures value2 == target && value1 != target ==> !IsAbsClosest(target, value1, value2)
  {
    Abs(target - value1) <= Abs(target - value2)
  }

  /** ExtendableRange.getClosest is isAbsClosest applied at the range's mean. */
  lemma ClosestIsAbsClosestToMean(r: Interval, value1: real, value2: real)
    ensures Closest(r, value1, value2) == if IsAbsClosest(Mean(r), value1, value2) then value1 else value2
  {
    assert r.lower + Size(r) / 2.0 == Mean(r);
  }

  /** One segment of getTrapezoidArea as written: a triangle on |dz| plus a rectangle of the left height. */
  function SegmentAsWritten(p: XYZPoint, q: XYZPoint): real
  {
    var dX := q.x - p.x;
    var dYTri := Abs(q.z - p.z);
    var dYRec := p.z;
    (dX * dYTri / 2.0) + (dX * dYRec)
  }

  /** getTrapezoidArea as written, over consecutive (x, z) pairs; 0 for fewer than two points. */
  function AreaAsWritten(s: seq<XYZPoint>): real
  {
    if |s| < 2 then 0.0 else AreaAsWritten(s[..|s| - 1]) + SegmentAsWritten(s[|s| - 2], s[|s| - 1])
  }

  /** The loop of getTrapezoidArea. */
  method GetTrapezoidArea(data: seq<XYZPoint>) returns (area: real)
    ensures area == AreaAsWritten(data)
  {
    area := 0.0;
    var i := 1;
    while i < |data|
      invariant 1 <= i <= |data| || (|data| == 0 && i == 1)
      invariant area == if |data| == 0 then 0.0 else AreaAsWritten(data[..i])
    {
      assert data[..i + 1][..i] == data[..i];
      var dX := data[i].x - data[i - 1].x;
      var dYTri := Abs(data[i].z - data[i - 1].z);
      var dYRec := data[i - 1].z;
      assert (dX * dYTri / 2.0) + (dX * dYRec) == SegmentAsWritten(data[i - 1], data[i]);
      assert AreaAsWritten(data[..i + 1]) == AreaAsWritten(data[..i]) + SegmentAsWritten(data[i - 1], data[i]);
      area := area + ((dX * dYTri / 2.0) + (dX * dYRec));
      i := i + 1;
    }
    if |data| > 0 {
      assert data[..|data|] == data;
    }
  }

  /** One trapezoid as evidently intended: width times the mean of the two heights. */
  function Segment(p: XYZPoint, q: XYZPoint): real
  {
    (q.x - p.x) * (p.z + q.z) / 2.0
  }

  /** The area under the piecewise-linear profile. */
  function Area(s: seq<XYZPoint>): real
  {
    if |s| < 2 then 0.0 else Area(s[..|s| - 1]) + Segment(s[|s| - 2], s[|s| - 1])
  }

  /** Each segment as written exceeds the trapezoid by dX * max(0, z[i-1] - z[i]): the two agree on
      rising or flat segments, and a falling one is counted with the taller rectangle. */
  lemma SegmentOvershoot(p: XYZPoint, q: XYZPoint)
    ensures SegmentAsWritten(p, q) == Segment(p, q) + (q.x - p.x) * MaxR(0.0, p.z - q.z)
  {
    if q.z >= p.z {
      assert Abs(q.z - p.z) == q.z - p.z;
    } else {
      assert Abs(q.z - p.z) == p.z - q.z;
    }
  }

  /** On a profile that never falls the area as written is the trapezoid area. */
  lemma {:induction false} AreaAsWrittenOnRisingProfile(s: seq<XYZPoint>)
    requires forall i :: 0 < i < |s| ==> s[i - 1].z <= s[i].z
    ensures AreaAsWritten(s) == Area(s)
  {
    if |s| >= 2 {
      AreaAsWrittenOnRisingProfile(s[..|s| - 1]);
      SegmentOvershoot(s[|s| - 2], s[|s| - 1]);
    }
  }

  function Flip(p: XYZPoint): XYZPoint
  {
    XYZPoint(-p.x, p.y, p.z)
  }

  /** The profile traversed backwards along a negated x axis: its area is unchanged. */
  function Mirror(s: seq<XYZPoint>): (r: seq<XYZPoint>)
    ensures |r| == |s|
  {
    if |s| == 0 then [] else Mirror(s[1..]) + [Flip(s[0])]
  }

  lemma {:induction false} MirrorLast(s: seq<XYZPoint>)
    requires |s| > 0
    ensures Mirror(s)[|s| - 1] == Flip(s[0]) && Mirror(s)[0] == Flip(s[|s| - 1])
  {
    if |s| > 1 {
      MirrorLast(s[1..]);
    }
  }

  /** Adding a point in front adds its segment. */
  lemma {:induction false} AreaCons(p: XYZPoint, s: seq<XYZPoint>)
    requires |s| > 0
    ensures Area([p] + s) == Segment(p, s[0]) + Area(s)
    decreases |s|
  {
    if |s| >= 2 {
      var t := [p] + s;
      assert t[..|t| - 1] == [p] + s[..|s| - 1];
      AreaCons(p, s[..|s| - 1]);
    } else {
      assert [p] + s == [p, s[0]];
    }
  }

  /** The trapezoid area does not depend on the direction the profile is read in. */
  lemma {:induction false} AreaMirror(s: seq<XYZPoint>)
    ensures Area(Mirror(s)) == Area(s)
  {
    if |s| >= 2 {
      AreaMirror(s[1..]);
      MirrorLast(s[1..]);
      var m := Mirror(s[1..]);
      var t := m + [Flip(s[0])];
      assert t[..|t| - 1] == m;
      assert Segment(Flip(s[1]), Flip(s[0])) == Segment(s[0], s[1]);
      AreaCons(s[0], s[1..]);
      assert [s[0]] + s[1..] == s;
    } else if |s| == 1 {
      assert Mirror(s) == [Flip(s[0])];
    }
  }

  /** A falling segment: the area as written is 3 where the trapezoid is 1. */
  lemma AreaAsWrittenFallingSegment(p: XYZPoint, q: XYZPoint)
    requires p == XYZPoint(0.0, 0.0, 2.0) && q == XYZPoint(1.0, 0.0, 0.0)
    ensures AreaAsWritten([p, q]) == 3.0
    ensures Area([p, q]) == 1.0
  {
    var s := [p, q];
    assert s[..1] == [p];
    assert SegmentAsWritten(p, q) == 3.0 by {
      assert Abs(q.z - p.z) == 2.0;
    }
    assert Segment(p, q) == 1.0;
  }

  lemma RisingSegmentAsWritten(a: XYZPoint, b: XYZPoint)
    requires a == XYZPoint(-1.0, 0.0, 0.0) && b == XYZPoint(0.0, 0.0, 2.0)
    ensures SegmentAsWritten(a, b) == 1.0
  {
    assert Abs(b.z - a.z) == 2.0;
  }

  /** The same profile read backwards gives 1 as written: the result depends on the direction. */
  lemma AreaAsWrittenRisingMirror(p: XYZPoint, q: XYZPoint)
    requires p == XYZPoint(0.0, 0.0, 2.0) && q == XYZPoint(1.0, 0.0, 0.0)
    ensures AreaAsWritten(Mirror([p, q])) == 1.0
  {
    var a, b := XYZPoint(-1.0, 0.0, 0.0), XYZPoint(0.0, 0.0, 2.0);
    RisingSegmentAsWritten(a, b);
    var s := [p, q];
    assert Flip(q) == a && Flip(p) == b;
    assert s[1..] == [q];
    assert [q][1..] == [];
    assert Mirror([q]) == [a];
    var m := Mirror(s);
    assert m == [a, b];
    assert m[..1] == [a];
  }
}
