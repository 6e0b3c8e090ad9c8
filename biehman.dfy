/** BiehmanWindow: the deconvolution window around the highest point of an extracted ion
    chromatogram, grown to each side until the signal drops below 1% of the maximum or rises again
    above the noise allowance over the lowest point seen so far. */
module Biehman {
  import opened Points

  /** The fraction of the maximum below which a point ends the window. */
  const MIN_PERCENT: real := 0.01

  /** `c > noise * Math.sqrt(m)` written without the square root: false for a negative m (the root is
      not a number there), and otherwise decided by the signs and the squares of both sides. */
  predicate Rises(c: real, noise: real, m: real)
  {
    m >= 0.0 &&
    if noise >= 0.0 then c > 0.0 && c * c > noise * noise * m
    else c > 0.0 || (c == 0.0 && m > 0.0) || (c < 0.0 && c * c < noise * noise * m)
  }

  /** For the square root s of m, Rises is exactly the comparison against noise * s. */
  lemma RisesIsComparison(c: real, noise: real, m: real, s: real)
    requires s >= 0.0 && s * s == m
    ensures Rises(c, noise, m) <==> c > noise * s
  {
    var a := noise * s;
    assert a * a == noise * noise * m;
    if noise >= 0.0 {
      assert a >= 0.0;
      if c > a {
        assert c > 0.0 || a == 0.0;
        MulLt(a, c);
      }
    } else {
      assert a <= 0.0;
      if c < 0.0 && c * c < a * a {
        if c <= a { MulLe(-a, -c); }
      }
      if c > a && c < 0.0 {
        MulLt(-c, -a);
      }
      if c == 0.0 && m > 0.0 {
        assert s != 0.0;
        assert s > 0.0;
        assert a < 0.0;
      }
      if c == 0.0 && c > a {
        assert s != 0.0;
        MulLt(0.0, s);
      }
    }
  }

  lemma MulLe(x: real, y: real)
    requires 0.0 <= x <= y
    ensures x * x <= y * y
  {
    assert x * x <= x * y <= y * y;
  }

  lemma MulLt(x: real, y: real)
    requires 0.0 <= x < y
    ensures x * x < y * y
  {
    assert (y - x) * x >= 0.0;
    assert (y - x) * y > 0.0;
  }

  /** j is the first highest point of xic over [lo, hi] (j is lo when the range is empty). */
  ghost predicate FirstMaximum(xic: seq<XYPoint>, lo: int, hi: int, j: int)
    requires 0 <= lo < |xic| && hi < |xic|
  {
    lo <= j < |xic| && (j <= hi || j == lo) &&
    (forall t :: lo <= t <= hi ==> xic[t].y <= xic[j].y) &&
    (forall t :: lo <= t < j ==> xic[t].y < xic[j].y)
  }

  /** One side of the window: its boundary index and the index of its lowest point. */
  datatype Side = Side(boundary: int, minIndex: int)

  /** The right-hand loop of estimateWindow from point i on, with m the lowest point and b the boundary
      so far; last is the last index the loop may visit. */
  function ScanRight(xic: seq<XYPoint>, i: int, last: int, thr: real, noise: real, m: int, b: int): Side
    requires 0 <= m < |xic| && 0 <= i && last < |xic|
    decreases last - i + 1
  {
    if i > last then Side(b, m)
    else if xic[i].y < thr then Side(i, i)
    else if xic[i].y < xic[m].y then ScanRight(xic, i + 1, last, thr, noise, i, i)
    else if Rises(xic[i].y, noise, xic[m].y) then Side(i - 1, m)
    else ScanRight(xic, i + 1, last, thr, noise, m, i)
  }

  /** The left-hand loop of estimateWindow from point i down, stopping below index first. */
  function ScanLeft(xic: seq<XYPoint>, i: int, first: int, thr: real, noise: real, m: int, b: int): Side
    requires 0 <= m < |xic| && i < |xic| && 0 <= first
    decreases i - first + 1
  {
    if i < first then Side(b, m)
    else if xic[i].y < thr then Side(i, i)
    else if xic[i].y < xic[m].y then ScanLeft(xic, i - 1, first, thr, noise, i, i)
    else if Rises(xic[i].y, noise, xic[m].y) then Side(i + 1, m)
    else ScanLeft(xic, i - 1, first, thr, noise, m, i)
  }

  /** What the right-hand scan keeps, from any point of the loop: the boundary only moves right and stays
      within the visited range, the lowest point lies inside the window and is the lowest there when the
      start is not below the threshold, a point below the threshold can only be the boundary itself (and
      then the lowest point), and a window that stops early stops at such a point or before a rise. */
  lemma {:induction false} ScanRightWindow(xic: seq<XYPoint>, lo: int, i: int, last: int, thr: real, noise: real,
                                           m: int, b: int)
    requires 0 <= lo <= m <= b && b == i - 1 && b < |xic| && last < |xic|
    requires forall t :: lo <= t <= b ==> xic[m].y <= xic[t].y
    requires forall t :: lo < t <= b ==> xic[t].y >= thr
    ensures var r := ScanRight(xic, i, last, thr, noise, m, b);
      b <= r.boundary < |xic| && (r.boundary <= last || r.boundary == b) && m <= r.minIndex <= r.boundary &&
      (forall t :: lo < t < r.boundary ==> xic[t].y >= thr) &&
      (xic[lo].y >= thr ==> forall t :: lo <= t <= r.boundary ==> xic[r.minIndex].y <= xic[t].y) &&
      (xic[lo].y >= thr ==> forall t :: lo <= t <= r.boundary && xic[t].y < thr ==> t == r.boundary == r.minIndex) &&
      (r.boundary < last ==> xic[r.boundary].y < thr || Rises(xic[r.boundary + 1].y, noise, xic[r.minIndex].y))
    decreases last - i + 1
  {
    if i <= last && xic[i].y >= thr {
      if xic[i].y < xic[m].y {
        ScanRightWindow(xic, lo, i + 1, last, thr, noise, i, i);
      } else if !Rises(xic[i].y, noise, xic[m].y) {
        ScanRightWindow(xic, lo, i + 1, last, thr, noise, m, i);
      }
    }
  }

  /** The mirror image of ScanRightWindow for the left-hand scan, which starts at hi and moves down. */
  lemma {:induction false} ScanLeftWindow(xic: seq<XYPoint>, hi: int, i: int, first: int, thr: real, noise: real,
                                          m: int, b: int)
    requires 0 <= first && 0 <= b <= m <= hi < |xic| && b == i + 1
    requires forall t :: b <= t <= hi ==> xic[m].y <= xic[t].y
    requires forall t :: b <= t < hi ==> xic[t].y >= thr
    ensures var r := ScanLeft(xic, i, first, thr, noise, m, b);
      0 <= r.boundary <= b && (r.boundary >= first || r.boundary == b) && r.boundary <= r.minIndex <= m &&
      (forall t :: r.boundary < t < hi ==> xic[t].y >= thr) &&
      (xic[hi].y >= thr ==> forall t :: r.boundary <= t <= hi ==> xic[r.minIndex].y <= xic[t].y) &&
      (xic[hi].y >= thr ==> forall t :: r.boundary <= t <= hi && xic[t].y < thr ==> t == r.boundary == r.minIndex) &&
      (r.boundary > first ==> xic[r.boundary].y < thr || Rises(xic[r.boundary - 1].y, noise, xic[r.minIndex].y))
    decreases i - first + 1
  {
    if i >= first && xic[i].y >= thr {
      if xic[i].y < xic[m].y {
        ScanLeftWindow(xic, hi, i - 1, first, thr, noise, i, i);
      } else if !Rises(xic[i].y, noise, xic[m].y) {
        ScanLeftWindow(xic, hi, i - 1, first, thr, noise, m, i);
      }
    }
  }

  /** The whole window: oriLeftBoundary <= leftBoundary <= maxDpIndex <= rightBoundary <= oriRightBoundary,
      both lowest points inside it, and each lowest point the lowest of its side for a non-negative
      maximum. */
  lemma WindowBounds(xic: seq<XYPoint>, oriL: int, oriR: int, noise: real, j: int)
    requires 0 <= oriL <= oriR < |xic| && FirstMaximum(xic, oriL, oriR, j)
    ensures var thr := xic[j].y * MIN_PERCENT;
      var r := ScanRight(xic, j + 1, oriR, thr, noise, j, j);
      var l := ScanLeft(xic, j - 1, oriL, thr, noise, j, j);
      oriL <= l.boundary <= l.minIndex <= j <= r.minIndex <= r.boundary <= oriR &&
      (xic[j].y >= 0.0 ==>
        (forall t :: j <= t <= r.boundary ==> xic[r.minIndex].y <= xic[t].y) &&
        (forall t :: l.boundary <= t <= j ==> xic[l.minIndex].y <= xic[t].y))
  {
    var thr := xic[j].y * MIN_PERCENT;
    ScanRightWindow(xic, j, j + 1, oriR, thr, noise, j, j);
    ScanLeftWindow(xic, j, j - 1, oriL, thr, noise, j, j);
    if xic[j].y >= 0.0 {
      assert xic[j].y >= thr;
    }
  }

  class BiehmanWindow {
    const xicData: seq<XYPoint>
    const oriLeftBoundary: int
    const oriRightBoundary: int
    var noiseEstimate: real

    var maxDp: XYPoint
    var maxDpIndex: int

    var rightMinDp: XYPoint
    var rightMinDpIndex: int
    var rightBoundary: int

    var leftMinDp: XYPoint
    var leftMinDpIndex: int
    var leftBoundary: int

    /** The constructor: the first maximum of [oriLeftBoundary, oriRightBoundary], then both sides
        of the window scanned from it. */
    constructor (xic: seq<XYPoint>, oriL: int, oriR: int, noise: real)
      requires 0 <= oriL < |xic| && oriR < |xic|
      ensures xicData == xic && oriLeftBoundary == oriL && oriRightBoundary == oriR && noiseEstimate == noise
      ensures FirstMaximum(xic, oriL, oriR, maxDpIndex) && maxDp == xic[maxDpIndex]
      ensures 0 <= leftBoundary <= leftMinDpIndex <= maxDpIndex <= rightMinDpIndex <= rightBoundary < |xic|
      ensures Side(rightBoundary, rightMinDpIndex) ==
        ScanRight(xic, maxDpIndex + 1, oriR, maxDp.y * MIN_PERCENT, noise, maxDpIndex, maxDpIndex)
      ensures Side(leftBoundary, leftMinDpIndex) ==
        ScanLeft(xic, maxDpIndex - 1, oriL, maxDp.y * MIN_PERCENT, noise, maxDpIndex, maxDpIndex)
      ensures rightMinDp == xic[rightMinDpIndex] && leftMinDp == xic[leftMinDpIndex]
    {
      xicData := xic;
      maxDp := xic[oriL];
      maxDpIndex := oriL;
      oriLeftBoundary := oriL;
      oriRightBoundary := oriR;
      new;
      FindMaximumDp();
      noiseEstimate := noise;
      rightMinDp := maxDp;
      rightMinDpIndex := maxDpIndex;
      rightBoundary := maxDpIndex;
      leftMinDp := maxDp;
      leftMinDpIndex := maxDpIndex;
      leftBoundary := maxDpIndex;
      EstimateWindow();
    }

    /** findMaximumDp: the first point of the range with the highest intensity, by strict comparison. */
    method FindMaximumDp()
      requires 0 <= oriLeftBoundary < |xicData| && oriRightBoundary < |xicData|
      requires maxDpIndex == oriLeftBoundary && maxDp == xicData[oriLeftBoundary]
      modifies this
      ensures FirstMaximum(xicData, oriLeftBoundary, oriRightBoundary, maxDpIndex)
      ensures maxDp == xicData[maxDpIndex] && noiseEstimate == old(noiseEstimate)
    {
      var i := oriLeftBoundary;
      while i <= oriRightBoundary
        invariant oriLeftBoundary <= i <= oriRightBoundary + 1 || i == oriLeftBoundary
        invariant oriLeftBoundary <= maxDpIndex < |xicData| && (maxDpIndex < i || maxDpIndex == oriLeftBoundary)
        invariant maxDp == xicData[maxDpIndex]
        invariant forall t :: oriLeftBoundary <= t < i ==> xicData[t].y <= maxDp.y
        invariant forall t :: oriLeftBoundary <= t < maxDpIndex ==> xicData[t].y < maxDp.y
        invariant noiseEstimate == old(noiseEstimate)
      {
        if maxDp.y < xicData[i].y {
          maxDp := xicData[i];
          maxDpIndex := i;
        }
        i := i + 1;
      }
    }

    /** estimateWindow: scans right up to oriRightBoundary and left down to oriLeftBoundary. */
    method EstimateWindow()
      requires 0 <= oriLeftBoundary <= maxDpIndex < |xicData| && oriRightBoundary < |xicData|
      requires maxDp == xicData[maxDpIndex]
      requires rightMinDp == maxDp && rightMinDpIndex == maxDpIndex && rightBoundary == maxDpIndex
      requires leftMinDp == maxDp && leftMinDpIndex == maxDpIndex && leftBoundary == maxDpIndex
      modifies this
      ensures maxDpIndex == old(maxDpIndex) && maxDp == old(maxDp) && noiseEstimate == old(noiseEstimate)
      ensures 0 <= leftBoundary <= leftMinDpIndex <= maxDpIndex <= rightMinDpIndex <= rightBoundary < |xicData|
      ensures Side(rightBoundary, rightMinDpIndex) ==
        ScanRight(xicData, maxDpIndex + 1, oriRightBoundary, maxDp.y * MIN_PERCENT, noiseEstimate, maxDpIndex, maxDpIndex)
      ensures Side(leftBoundary, leftMinDpIndex) ==
        ScanLeft(xicData, maxDpIndex - 1, oriLeftBoundary, maxDp.y * MIN_PERCENT, noiseEstimate, maxDpIndex, maxDpIndex)
      ensures rightMinDp == xicData[rightMinDpIndex] && leftMinDp == xicData[leftMinDpIndex]
    {
      var threshold := maxDp.y * MIN_PERCENT;
      ghost var right := ScanRight(xicData, maxDpIndex + 1, oriRightBoundary, threshold, noiseEstimate, maxDpIndex, maxDpIndex);
      var windowLength := oriRightBoundary - maxDpIndex;
      var i := maxDpIndex + 1;
      while i <= maxDpIndex + windowLength
        invariant maxDpIndex == old(maxDpIndex) && maxDp == old(maxDp) && noiseEstimate == old(noiseEstimate)
        invariant leftMinDp == maxDp && leftMinDpIndex == maxDpIndex && leftBoundary == maxDpIndex
        invariant maxDpIndex < i && maxDpIndex <= rightMinDpIndex <= rightBoundary < i && rightBoundary < |xicData|
        invariant rightMinDp == xicData[rightMinDpIndex]
        invariant ScanRight(xicData, i, oriRightBoundary, threshold, noiseEstimate, rightMinDpIndex, rightBoundary) == right
        decreases oriRightBoundary - i
      {
        var curDp := xicData[i];
        if curDp.y < threshold {
          rightBoundary := i;
          rightMinDp := curDp;
          rightMinDpIndex := i;
          break;
        } else if curDp.y < rightMinDp.y {
          rightMinDp := curDp;
          rightMinDpIndex := i;
        } else if Rises(curDp.y, noiseEstimate, rightMinDp.y) {
          rightBoundary := i - 1;
          break;
        }
        rightBoundary := i;
        i := i + 1;
      }
      ghost var left := ScanLeft(xicData, maxDpIndex - 1, oriLeftBoundary, threshold, noiseEstimate, maxDpIndex, maxDpIndex);
      windowLength := oriLeftBoundary;
      i := maxDpIndex - 1;
      while i >= windowLength
        invariant maxDpIndex == old(maxDpIndex) && maxDp == old(maxDp) && noiseEstimate == old(noiseEstimate)
        invariant maxDpIndex <= rightMinDpIndex <= rightBoundary < |xicData|
        invariant Side(rightBoundary, rightMinDpIndex) == right && rightMinDp == xicData[rightMinDpIndex]
        invariant i < maxDpIndex && i < leftBoundary <= leftMinDpIndex <= maxDpIndex && 0 <= leftBoundary
        invariant leftMinDp == xicData[leftMinDpIndex]
        invariant ScanLeft(xicData, i, oriLeftBoundary, threshold, noiseEstimate, leftMinDpIndex, leftBoundary) == left
        decreases i
      {
        var curDp := xicData[i];
        if curDp.y < threshold {
          leftBoundary := i;
          leftMinDp := curDp;
          leftMinDpIndex := i;
          break;
        } else if curDp.y < leftMinDp.y {
          leftMinDp := curDp;
          leftMinDpIndex := i;
        } else if Rises(curDp.y, noiseEstimate, leftMinDp.y) {
          leftBoundary := i + 1;
          break;
        }
        leftBoundary := i;
        i := i - 1;
      }
    }
  }
}
