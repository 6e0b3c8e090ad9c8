/** ChartUtils.binValues without interpolation: the points of an xy list whose x lies in a range are
    sorted into numberOfBins equal-width bins, and each bin reports the sum, maximum, minimum or
    average of its y values, an empty bin reporting 0. */
module ChartUtils {
  import opened Wrappers
  import opened Numerics
  import opened Points
  import opened Ranges

  datatype BinningType = SUM | MAX | MIN | AVG

  // ---------------------------------------------------------------------------------------------
  // Bin placement

  /** The point is neither before the lower bound nor after the upper bound. */
  predicate InBinRange(p: XYPoint, binRange: Interval)
  {
    !(p.x - binRange.lower < 0.0) && !(binRange.upper - p.x < 0.0)
  }

  /** The bin of an x in range: the whole bin widths from the lower bound, the upper bound itself going
      into the last bin. A zero-width range puts everything into bin 0 (the quotient 0/0 is NaN, which
      the int cast turns into 0). The cast is exact floor here, because the quotient lies in [0, n]. */
  function BinIndex(x: real, binRange: Interval, numberOfBins: int): (b: int)
    requires numberOfBins > 0 && binRange.lower <= x <= binRange.upper
    ensures 0 <= b < numberOfBins
  {
    var binWidth := Size(binRange) / (numberOfBins as real);
    var raw := if binWidth == 0.0 then 0 else ((x - binRange.lower) / binWidth).Floor;
    QuotientAtMost(x - binRange.lower, Size(binRange), numberOfBins);
    if raw == numberOfBins then raw - 1 else raw
  }

  /** 0 <= d <= size gives 0 <= d / (size / n) <= n. */
  lemma QuotientAtMost(d: real, size: real, n: int)
    requires n > 0 && 0.0 <= d <= size
    ensures size / (n as real) != 0.0 ==> 0.0 <= d / (size / (n as real)) <= n as real
  {
    var w := size / (n as real);
    if w != 0.0 {
      assert w > 0.0;
      assert d / w == d * (n as real) / size;
      assert d * (n as real) <= size * (n as real);
    }
  }

  /** The bin a point lies in covers it: [lower + b w, lower + (b + 1) w) for the bin width w, the
      last bin closed at the upper bound; a point at the upper bound of a proper range is in the last
      bin. */
  lemma BinIndexLocates(x: real, binRange: Interval, numberOfBins: int)
    requires numberOfBins > 0 && binRange.lower <= x <= binRange.upper && binRange.lower < binRange.upper
    ensures var w := Size(binRange) / (numberOfBins as real);
      var b := BinIndex(x, binRange, numberOfBins);
      binRange.lower + (b as real) * w <= x &&
      (x < binRange.lower + ((b + 1) as real) * w || b == numberOfBins - 1)
    ensures x == binRange.upper ==> BinIndex(x, binRange, numberOfBins) == numberOfBins - 1
  {
    var n := numberOfBins as real;
    var w := Size(binRange) / n;
    assert w > 0.0;
    var q := (x - binRange.lower) / w;
    var raw := q.Floor;
    assert (raw as real) <= q < (raw as real) + 1.0;
    assert q * w == x - binRange.lower;
    MulMono(raw as real, q, w);
    MulMonoStrict(q, (raw as real) + 1.0, w);
    if x == binRange.upper {
      assert q == n by {
        assert Size(binRange) / w == n;
      }
    }
  }

  lemma MulMono(a: real, b: real, w: real)
    requires a <= b && w > 0.0
    ensures a * w <= b * w
  {
  }

  lemma MulMonoStrict(a: real, b: real, w: real)
    requires a < b && w > 0.0
    ensures a * w < b * w
  {
  }

  /** The y values that go into bin b, in list order. */
  function BinYs(pts: seq<XYPoint>, binRange: Interval, numberOfBins: int, b: int): seq<real>
    requires numberOfBins > 0
  {
    if |pts| == 0 then []
    else
      var p := pts[|pts| - 1];
      var before := BinYs(pts[..|pts| - 1], binRange, numberOfBins, b);
      if InBinRange(p, binRange) && BinIndex(p.x, binRange, numberOfBins) == b then before + [p.y] else before
  }

  // ---------------------------------------------------------------------------------------------
  // Aggregates

  /** The running maximum, replaced only by a strictly larger value. */
  function MaxOf(ys: seq<real>): real
    requires |ys| > 0
  {
    if |ys| == 1 then ys[0]
    else
      var m := MaxOf(ys[..|ys| - 1]);
      if m < ys[|ys| - 1] then ys[|ys| - 1] else m
  }

  /** The running minimum, replaced only by a strictly smaller value. */
  function MinOf(ys: seq<real>): real
    requires |ys| > 0
  {
    if |ys| == 1 then ys[0]
    else
      var m := MinOf(ys[..|ys| - 1]);
      if m > ys[|ys| - 1] then ys[|ys| - 1] else m
  }

  /** MaxOf is one of the values and at least every one of them. */
  lemma {:induction false} MaxOfIsMaximum(ys: seq<real>)
    requires |ys| > 0
    ensures MaxOf(ys) in ys && forall k :: 0 <= k < |ys| ==> ys[k] <= MaxOf(ys)
  {
    if |ys| > 1 {
      MaxOfIsMaximum(ys[..|ys| - 1]);
      assert forall k :: 0 <= k < |ys| - 1 ==> ys[k] == ys[..|ys| - 1][k];
    }
  }

  /** MinOf is one of the values and at most every one of them. */
  lemma {:induction false} MinOfIsMinimum(ys: seq<real>)
    requires |ys| > 0
    ensures MinOf(ys) in ys && forall k :: 0 <= k < |ys| ==> MinOf(ys) <= ys[k]
  {
    if |ys| > 1 {
      MinOfIsMinimum(ys[..|ys| - 1]);
      assert forall k :: 0 <= k < |ys| - 1 ==> ys[k] == ys[..|ys| - 1][k];
    }
  }

  /** Values between lo and hi sum to between |ys| lo and |ys| hi. */
  lemma {:induction false} SumBetween(ys: seq<real>, lo: real, hi: real)
    requires forall k :: 0 <= k < |ys| ==> lo <= ys[k] <= hi
    ensures (|ys| as real) * lo <= Sum(ys) <= (|ys| as real) * hi
  {
    if |ys| > 0 {
      var front := ys[..|ys| - 1];
      assert forall k :: 0 <= k < |front| ==> front[k] == ys[k];
      SumBetween(front, lo, hi);
      assert (|ys| as real) * lo == (|front| as real) * lo + lo;
      assert (|ys| as real) * hi == (|front| as real) * hi + hi;
    }
  }

  /** The average of a bin lies between its minimum and its maximum. */
  lemma AverageBetween(ys: seq<real>)
    requires |ys| > 0
    ensures MinOf(ys) <= Average(ys) <= MaxOf(ys)
  {
    var lo, hi, n := MinOf(ys), MaxOf(ys), |ys| as real;
    MaxOfIsMaximum(ys);
    MinOfIsMinimum(ys);
    SumBetween(ys, lo, hi);
    QuotientBetween(Sum(ys), n, lo, hi);
    assert Average(ys) == Sum(ys) / n;
  }

  lemma QuotientBetween(s: real, n: real, lo: real, hi: real)
    requires n > 0.0 && n * lo <= s <= n * hi
    ensures lo <= s / n <= hi
  {
    var q := s / n;
    assert q * n == s;
    if q < lo {
      MulMonoStrict(q, lo, n);
    }
    if q > hi {
      MulMonoStrict(hi, q, n);
    }
  }

  /** A bin's value while the points are read (null while empty); for AVG, the sum so far. */
  function Acc(binningType: BinningType, ys: seq<real>): Option<real>
  {
    if |ys| == 0 then None
    else Some(match binningType
      case MAX => MaxOf(ys)
      case MIN => MinOf(ys)
      case SUM => Sum(ys)
      case AVG => Sum(ys))
  }

  /** A bin's value once the averages are taken (null while empty). */
  function Final(binningType: BinningType, ys: seq<real>): Option<real>
  {
    if |ys| == 0 then None else Some(Aggregate(binningType, ys))
  }

  /** The value binValues reports for a bin with these y values; 0 for an empty bin. */
  function Aggregate(binningType: BinningType, ys: seq<real>): real
  {
    if |ys| == 0 then 0.0
    else match binningType
      case MAX => MaxOf(ys)
      case MIN => MinOf(ys)
      case SUM => Sum(ys)
      case AVG => Average(ys)
  }

  // ---------------------------------------------------------------------------------------------
  // Every point in range is in exactly one bin

  /** The number of points in range. */
  function InRangeCount(pts: seq<XYPoint>, binRange: Interval): nat
  {
    if |pts| == 0 then 0
    else InRangeCount(pts[..|pts| - 1], binRange) + (if InBinRange(pts[|pts| - 1], binRange) then 1 else 0)
  }

  /** The total size of the bins below k. */
  function BinnedBelow(pts: seq<XYPoint>, binRange: Interval, numberOfBins: int, k: int): nat
    requires numberOfBins > 0
    decreases k
  {
    if k <= 0 then 0 else BinnedBelow(pts, binRange, numberOfBins, k - 1) + |BinYs(pts, binRange, numberOfBins, k - 1)|
  }

  lemma {:induction false} BinnedBelowSnoc(pts: seq<XYPoint>, binRange: Interval, numberOfBins: int, k: int)
    requires numberOfBins > 0 && |pts| > 0
    ensures var p := pts[|pts| - 1];
      BinnedBelow(pts, binRange, numberOfBins, k) ==
        BinnedBelow(pts[..|pts| - 1], binRange, numberOfBins, k) +
        (if InBinRange(p, binRange) && BinIndex(p.x, binRange, numberOfBins) < k then 1 else 0)
    decreases k
  {
    if k > 0 {
      BinnedBelowSnoc(pts, binRange, numberOfBins, k - 1);
    }
  }

  /** The bins hold every point in range once: their sizes add up to the number of points in range. */
  lemma {:induction false} BinsPartition(pts: seq<XYPoint>, binRange: Interval, numberOfBins: int)
    requires numberOfBins > 0
    ensures BinnedBelow(pts, binRange, numberOfBins, numberOfBins) == InRangeCount(pts, binRange)
  {
    if |pts| == 0 {
      EmptyBins(binRange, numberOfBins, numberOfBins);
    } else {
      BinnedBelowSnoc(pts, binRange, numberOfBins, numberOfBins);
      BinsPartition(pts[..|pts| - 1], binRange, numberOfBins);
    }
  }

  lemma {:induction false} EmptyBins(binRange: Interval, numberOfBins: int, k: int)
    requires numberOfBins > 0
    ensures BinnedBelow([], binRange, numberOfBins, k) == 0
    decreases k
  {
    if k > 0 {
      EmptyBins(binRange, numberOfBins, k - 1);
    }
  }

  // ---------------------------------------------------------------------------------------------
  // binValues

  /** The bins from k on hold their values as accumulated while reading pts. */
  ghost predicate AccFrom(bins: seq<Option<real>>, pts: seq<XYPoint>, binRange: Interval, numberOfBins: int,
                          binningType: BinningType, k: int)
    requires numberOfBins > 0
  {
    |bins| == numberOfBins &&
    forall b :: 0 <= k <= b < numberOfBins ==> bins[b] == Acc(binningType, BinYs(pts, binRange, numberOfBins, b))
  }

  /** Each bin's number of entries is the number of its values. */
  ghost predicate Counted(entries: seq<real>, pts: seq<XYPoint>, binRange: Interval, numberOfBins: int)
    requires numberOfBins > 0
  {
    |entries| == numberOfBins &&
    forall b :: 0 <= b < numberOfBins ==> entries[b] == |BinYs(pts, binRange, numberOfBins, b)| as real
  }

  /** The bins after the points of pts have been read. */
  ghost predicate Accumulated(bins: seq<Option<real>>, entries: seq<real>, pts: seq<XYPoint>,
                              binRange: Interval, numberOfBins: int, binningType: BinningType)
    requires numberOfBins > 0
  {
    |entries| == numberOfBins && AccFrom(bins, pts, binRange, numberOfBins, binningType, 0) &&
    (binningType == AVG ==> Counted(entries, pts, binRange, numberOfBins))
  }

  /** The new value of a bin holding v when a point with value y is added to it. */
  function Absorb(binningType: BinningType, v: Option<real>, y: real): real
  {
    match binningType
      case MAX => if v.None? || v.value < y then y else v.value
      case MIN => if v.None? || v.value > y then y else v.value
      case SUM => if v.None? then y else v.value + y
      case AVG => if v.None? then y else v.value + y
  }

  /** The new number of entries of a bin holding v (kept for AVG only). */
  function AbsorbCount(binningType: BinningType, v: Option<real>, e: real): real
  {
    if binningType != AVG then e else if v.None? then 1.0 else e + 1.0
  }

  /** Reading one more point changes its own bin only, as the switch on the binning type does. */
  lemma AccumulateStep(bins: seq<Option<real>>, entries: seq<real>, pts: seq<XYPoint>, p: XYPoint,
                       binRange: Interval, numberOfBins: int, binningType: BinningType)
    requires numberOfBins > 0 && Accumulated(bins, entries, pts, binRange, numberOfBins, binningType)
    ensures !InBinRange(p, binRange) ==> Accumulated(bins, entries, pts + [p], binRange, numberOfBins, binningType)
    ensures InBinRange(p, binRange) ==>
      var b := BinIndex(p.x, binRange, numberOfBins);
      Accumulated(bins[b := Some(Absorb(binningType, bins[b], p.y))],
                  entries[b := AbsorbCount(binningType, bins[b], entries[b])],
                  pts + [p], binRange, numberOfBins, binningType)
  {
    var pts' := pts + [p];
    assert pts'[..|pts'| - 1] == pts;
    if InBinRange(p, binRange) {
      var b := BinIndex(p.x, binRange, numberOfBins);
      var ys := BinYs(pts, binRange, numberOfBins, b);
      assert BinYs(pts', binRange, numberOfBins, b) == ys + [p.y];
      assert (ys + [p.y])[..|ys|] == ys;
      SumAppend(ys, p.y);
    }
  }

  /** The bins once the averages are taken, from bin 0 up to k. */
  ghost predicate FinalBelow(bins: seq<Option<real>>, pts: seq<XYPoint>, binRange: Interval, numberOfBins: int,
                             binningType: BinningType, k: int)
    requires numberOfBins > 0
  {
    |bins| == numberOfBins &&
    (forall b :: 0 <= b < k && b < numberOfBins ==> bins[b] == Final(binningType, BinYs(pts, binRange, numberOfBins, b)))
  }

  /** Without averaging, the accumulated bins are final. */
  lemma AccumulatedFinal(bins: seq<Option<real>>, entries: seq<real>, pts: seq<XYPoint>,
                         binRange: Interval, numberOfBins: int, binningType: BinningType)
    requires numberOfBins > 0 && Accumulated(bins, entries, pts, binRange, numberOfBins, binningType)
    requires binningType != AVG
    ensures FinalBelow(bins, pts, binRange, numberOfBins, binningType, numberOfBins)
  {
  }

  /** Dividing the sum of an AVG bin by its number of entries makes it final. */
  lemma AverageStep(bins: seq<Option<real>>, entries: seq<real>, pts: seq<XYPoint>,
                    binRange: Interval, numberOfBins: int, k: int)
    requires numberOfBins > 0 && 0 <= k < numberOfBins && Counted(entries, pts, binRange, numberOfBins)
    requires AccFrom(bins, pts, binRange, numberOfBins, AVG, k) && FinalBelow(bins, pts, binRange, numberOfBins, AVG, k)
    ensures var bins' := if bins[k].Some? then bins[k := Some(bins[k].value / entries[k])] else bins;
      AccFrom(bins', pts, binRange, numberOfBins, AVG, k + 1) && FinalBelow(bins', pts, binRange, numberOfBins, AVG, k + 1)
  {
    var ys := BinYs(pts, binRange, numberOfBins, k);
    assert bins[k] == Acc(AVG, ys) && entries[k] == |ys| as real;
  }

  /** The switch on the binning type in the first loop of binValues: folds value y into bin binIndex. */
  method AbsorbPoint(binValues: array<Option<real>>, noOfEntries: array<real>, binIndex: int,
                     binningType: BinningType, y: real)
    requires binValues.Length == noOfEntries.Length && 0 <= binIndex < binValues.Length
    modifies binValues, noOfEntries
    ensures binValues[..] == old(binValues[..])[binIndex := Some(Absorb(binningType, old(binValues[binIndex]), y))]
    ensures noOfEntries[..] ==
      old(noOfEntries[..])[binIndex := AbsorbCount(binningType, old(binValues[binIndex]), old(noOfEntries[binIndex]))]
  {
    match binningType {
      case MAX =>
        if binValues[binIndex].None? || binValues[binIndex].value < y {
          binValues[binIndex] := Some(y);
        }
      case MIN =>
        if binValues[binIndex].None? || binValues[binIndex].value > y {
          binValues[binIndex] := Some(y);
        }
      case AVG =>
        if binValues[binIndex].None? {
          noOfEntries[binIndex] := 1.0;
          binValues[binIndex] := Some(y);
        } else {
          noOfEntries[binIndex] := noOfEntries[binIndex] + 1.0;
          binValues[binIndex] := Some(binValues[binIndex].value + y);
        }
      case SUM =>
        if binValues[binIndex].None? {
          binValues[binIndex] := Some(y);
        } else {
          binValues[binIndex] := Some(binValues[binIndex].value + y);
        }
    }
  }

  /** The first loop of binValues: reads the points in order, skipping those out of range, and folds
      each into its bin as the binning type says. It fails at the first point in range when there are no
      bins, since that point indexes bin -1. */
  method AccumulateBins(xyList: seq<XYPoint>, binRange: Interval, numberOfBins: int, binningType: BinningType,
                        binValues: array<Option<real>>, noOfEntries: array<real>)
    returns (ok: bool)
    requires binValues.Length == noOfEntries.Length == numberOfBins
    requires forall b :: 0 <= b < numberOfBins ==> binValues[b].None? && noOfEntries[b] == 0.0
    modifies binValues, noOfEntries
    ensures numberOfBins == 0 ==> (!ok <==> exists k :: 0 <= k < |xyList| && InBinRange(xyList[k], binRange))
    ensures numberOfBins > 0 ==>
      ok && Accumulated(binValues[..], noOfEntries[..], xyList, binRange, numberOfBins, binningType)
  {
    if numberOfBins > 0 {
      assert Accumulated(binValues[..], noOfEntries[..], xyList[..0], binRange, numberOfBins, binningType);
    }
    var valueIndex := 0;
    while valueIndex < |xyList|
      invariant 0 <= valueIndex <= |xyList|
      invariant numberOfBins == 0 ==> forall k :: 0 <= k < valueIndex ==> !InBinRange(xyList[k], binRange)
      invariant numberOfBins > 0 ==>
        Accumulated(binValues[..], noOfEntries[..], xyList[..valueIndex], binRange, numberOfBins, binningType)
    {
      var xyPoint := xyList[valueIndex];
      assert xyList[..valueIndex + 1] == xyList[..valueIndex] + [xyPoint];
      if numberOfBins > 0 {
        AccumulateStep(binValues[..], noOfEntries[..], xyList[..valueIndex], xyPoint, binRange, numberOfBins, binningType);
      }
      if xyPoint.x - binRange.lower < 0.0 || binRange.upper - xyPoint.x < 0.0 {
        valueIndex := valueIndex + 1;
      } else if numberOfBins == 0 {
        return false;
      } else {
        var binIndex := BinIndex(xyPoint.x, binRange, numberOfBins);
        AbsorbPoint(binValues, noOfEntries, binIndex, binningType, xyPoint.y);
        valueIndex := valueIndex + 1;
      }
    }
    assert xyList[..|xyList|] == xyList;
    return true;
  }

  /** The AVG pass of binValues: divides every nonempty bin by its number of entries. */
  method AverageBins(xyList: seq<XYPoint>, binRange: Interval, numberOfBins: int,
                     binValues: array<Option<real>>, noOfEntries: array<real>)
    requires numberOfBins > 0 && binValues.Length == noOfEntries.Length == numberOfBins
    requires Accumulated(binValues[..], noOfEntries[..], xyList, binRange, numberOfBins, AVG)
    modifies binValues
    ensures FinalBelow(binValues[..], xyList, binRange, numberOfBins, AVG, numberOfBins)
  {
    var binIndex := 0;
    while binIndex < numberOfBins
      invariant 0 <= binIndex <= numberOfBins
      invariant Counted(noOfEntries[..], xyList, binRange, numberOfBins)
      invariant AccFrom(binValues[..], xyList, binRange, numberOfBins, AVG, binIndex)
      invariant FinalBelow(binValues[..], xyList, binRange, numberOfBins, AVG, binIndex)
    {
      AverageStep(binValues[..], noOfEntries[..], xyList, binRange, numberOfBins, binIndex);
      if binValues[binIndex].Some? {
        binValues[binIndex] := Some(binValues[binIndex].value / noOfEntries[binIndex]);
      }
      binIndex := binIndex + 1;
    }
  }

  /** binValues with interpolation off. A negative number of bins fails to allocate the bins; with no
      bins, the first point in range indexes bin -1. Otherwise there is one value per bin: the
      aggregate of the y values of the points placed in it by BinIndex, 0 for an empty bin. */
  method BinValues(xyList: seq<XYPoint>, binRange: Interval, numberOfBins: int, binningType: BinningType)
    returns (res: Result<seq<real>>)
    ensures numberOfBins < 0 ==> res.Failure?
    ensures numberOfBins == 0 ==> (res.Failure? <==> exists k :: 0 <= k < |xyList| && InBinRange(xyList[k], binRange))
    ensures numberOfBins > 0 ==> (res.Success? && |res.value| == numberOfBins &&
      forall b :: 0 <= b < numberOfBins ==>
        res.value[b] == Aggregate(binningType, BinYs(xyList, binRange, numberOfBins, b)))
  {
    if numberOfBins < 0 {
      return Failure("NegativeArraySizeException");
    }
    var binValues := new Option<real>[numberOfBins](_ => None);
    // allocated on the first point for AVG in the source; no other branch reads it
    var noOfEntries := new real[numberOfBins](_ => 0.0);
    var ok := AccumulateBins(xyList, binRange, numberOfBins, binningType, binValues, noOfEntries);
    if !ok {
      return Failure("ArrayIndexOutOfBoundsException");
    }
    if numberOfBins == 0 {
      return Success([]);
    }
    if binningType == AVG {
      AverageBins(xyList, binRange, numberOfBins, binValues, noOfEntries);
    } else {
      AccumulatedFinal(binValues[..], noOfEntries[..], xyList, binRange, numberOfBins, binningType);
    }

    var res' := new real[numberOfBins];
    var binIndex := 0;
    while binIndex < numberOfBins
      invariant 0 <= binIndex <= numberOfBins
      invariant FinalBelow(binValues[..], xyList, binRange, numberOfBins, binningType, numberOfBins)
      invariant forall b :: 0 <= b < binIndex ==> res'[b] == Aggregate(binningType, BinYs(xyList, binRange, numberOfBins, b))
    {
      assert binValues[binIndex] == binValues[..][binIndex];
      res'[binIndex] := if binValues[binIndex].None? then 0.0 else binValues[binIndex].value;
      binIndex := binIndex + 1;
    }
    return Success(res'[..]);
  }
}
