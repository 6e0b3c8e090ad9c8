/** XYPoint and XYZPoint: the immutable data points every list in the library holds. */
module Points {
  import opened Constants
  import opened Ranges

  /** An (x, y) pair, usually (m/z, intensity) or (time, intensity). */
  datatype XYPoint = XYPoint(x: real, y: real)

  /** An (x, y, z) triple, usually (retention time, m/z, intensity). */
  datatype XYZPoint = XYZPoint(x: real, y: real, z: real)

  /** XYPoint.compareTo: -1, 0 or 1 by x alone. */
  function ComparePoints(p: XYPoint, q: XYPoint): int
  {
    if p.x < q.x then -1 else if p.x > q.x then 1 else 0
  }

  /** XYPoint.getRange: x widened by x * ppm / 10^6 on both sides. */
  function PointRange(p: XYPoint, ppm: real): Interval
  {
    Interval(p.x - (p.x * ppm / PPM), p.x + (p.x * ppm / PPM))
  }

  /** The tolerance range is centred on x, and for a positive x and ppm it contains x. */
  lemma PointRangeCentred(p: XYPoint, ppm: real)
    ensures Mean(PointRange(p, ppm)) == p.x
    ensures Size(PointRange(p, ppm)) == 2.0 * p.x * ppm / PPM
    ensures p.x > 0.0 && ppm > 0.0 ==> Contains(PointRange(p, ppm), p.x)
  {
    assert p.x * ppm / PPM == p.x * ppm / 1_000_000.0;
    if p.x > 0.0 && ppm > 0.0 {
      assert p.x * ppm > 0.0;
    }
  }

  function Xs(s: seq<XYPoint>): (r: seq<real>)
    ensures |r| == |s| && forall i :: 0 <= i < |s| ==> r[i] == s[i].x
  {
    seq(|s|, i requires 0 <= i < |s| => s[i].x)
  }

  function Ys(s: seq<XYPoint>): (r: seq<real>)
    ensures |r| == |s| && forall i :: 0 <= i < |s| ==> r[i] == s[i].y
  {
    seq(|s|, i requires 0 <= i < |s| => s[i].y)
  }

  /** Pairs two coordinate sequences back into points. */
  function Zip(xs: seq<real>, ys: seq<real>): (r: seq<XYPoint>)
    requires |xs| == |ys|
    ensures |r| == |xs| && forall i :: 0 <= i < |r| ==> r[i] == XYPoint(xs[i], ys[i])
  {
    seq(|xs|, i requires 0 <= i < |xs| => XYPoint(xs[i], ys[i]))
  }

  /** Splitting a list into its x and y arrays loses nothing. */
  lemma ZipXsYs(s: seq<XYPoint>)
    ensures Zip(Xs(s), Ys(s)) == s
  {
  }

  /** The points are in strictly increasing x order, as in every scan. */
  predicate StrictlyIncreasingX(s: seq<XYPoint>)
  {
    forall i, j :: 0 <= i < j < |s| ==> s[i].x < s[j].x
  }
}
