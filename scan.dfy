/** ScanImpl: one spectrum of a raw file, with its derived TIC, base peak and m/z range. */
module Scans {
  import opened Wrappers
  import opened Numerics
  import opened Constants
  import opened Ranges
  import opened Points
  import opened SortedSeqs

  /** The final fields of a ScanImpl; an ion mode of None stands for Java null. */
  datatype Scan = Scan(
    index: int, msn: MSN, ionMode: Option<IonMode>, points: seq<XYPoint>, mzRange: Interval,
    basePeak: seq<XYPoint>, retentionTime: real, totalIonCurrent: real,
    parentScan: int, parentCharge: int, parentMz: real)

  /** The state of the base-peak search of the minimal constructor after a prefix of the
      intensities: the index and intensity of the first strictly greatest one above 0. */
  datatype BaseState = BaseState(baseIndex: nat, baseIntensity: real)

  function BaseSearch(ys: seq<real>): (r: BaseState)
    ensures r.baseIndex < |ys| || (|ys| == 0 && r.baseIndex == 0)
  {
    if |ys| == 0 then BaseState(0, 0.0)
    else
      var st := BaseSearch(ys[..|ys| - 1]);
      if st.baseIntensity < ys[|ys| - 1] then BaseState(|ys| - 1, ys[|ys| - 1]) else st
  }

  /** The base peak is the first point of maximal positive intensity, or index 0 when no intensity
      is positive; the intensity it reports is max(0, max y). */
  lemma {:induction false} BaseSearchIsFirstMaximum(ys: seq<real>)
    ensures BaseSearch(ys).baseIntensity >= 0.0
    ensures BaseSearch(ys).baseIndex < |ys| || (BaseSearch(ys).baseIndex == 0 && |ys| == 0)
    ensures forall j :: 0 <= j < |ys| ==> ys[j] <= BaseSearch(ys).baseIntensity
    ensures BaseSearch(ys).baseIntensity > 0.0 ==>
              ys[BaseSearch(ys).baseIndex] == BaseSearch(ys).baseIntensity &&
              forall j :: 0 <= j < BaseSearch(ys).baseIndex ==> ys[j] < BaseSearch(ys).baseIntensity
    ensures BaseSearch(ys).baseIntensity == 0.0 ==> BaseSearch(ys).baseIndex == 0
  {
    if |ys| > 0 {
      BaseSearchIsFirstMaximum(ys[..|ys| - 1]);
    }
  }

  /** The minimal constructor: it derives the m/z range, base peak and TIC from the point list. */
  method MinimalScan(scanIndex: int, msn: MSN, ionMode: Option<IonMode>, xyList: seq<XYPoint>, retentionTime: real,
                     parentScan: int, parentCharge: int, parentMz: real) returns (scan: Scan)
    ensures scan.index == scanIndex && scan.msn == msn && scan.ionMode == ionMode && scan.points == xyList
    ensures scan.retentionTime == retentionTime && scan.parentScan == parentScan
    ensures scan.parentCharge == parentCharge && scan.parentMz == parentMz
    ensures |xyList| == 0 ==> scan.mzRange == Interval(0.0, 0.0) && scan.totalIonCurrent == 0.0 && scan.basePeak == []
    ensures |xyList| > 0 ==> scan.mzRange == Interval(xyList[0].x, xyList[|xyList| - 1].x)
    ensures |xyList| > 0 ==> scan.totalIonCurrent == Sum(Ys(xyList))
    ensures |xyList| > 0 ==> scan.basePeak == [xyList[BaseSearch(Ys(xyList)).baseIndex]]
  {
    if |xyList| == 0 {
      scan := Scan(scanIndex, msn, ionMode, xyList, Interval(0.0, 0.0), [], retentionTime, 0.0,
                   parentScan, parentCharge, parentMz);
      return;
    }
    var baseIndex := 0;
    var baseIntensity := 0.0;
    var tmpTic := 0.0;
    var i := 0;
    ghost var ys := Ys(xyList);
    while i < |xyList|
      invariant 0 <= i <= |xyList|
      invariant BaseState(baseIndex, baseIntensity) == BaseSearch(ys[..i])
      invariant tmpTic == Sum(ys[..i])
    {
      assert ys[..i + 1][..i] == ys[..i];
      if baseIntensity < xyList[i].y {
        baseIndex := i;
        baseIntensity := xyList[i].y;
      }
      tmpTic := tmpTic + xyList[i].y;
      i := i + 1;
    }
    assert ys[..i] == ys;
    BaseSearchIsFirstMaximum(ys);
    scan := Scan(scanIndex, msn, ionMode, xyList, Interval(xyList[0].x, xyList[|xyList| - 1].x),
                 [xyList[baseIndex]], retentionTime, tmpTic, parentScan, parentCharge, parentMz);
  }

  /** getMinIntensity: the least nonzero intensity, or Double.MAX_VALUE when every intensity is 0. */
  method GetMinIntensity(scan: Scan) returns (min: real)
    ensures min <= DOUBLE_MAX
    ensures forall i :: 0 <= i < |scan.points| && scan.points[i].y != 0.0 ==> min <= scan.points[i].y
    ensures min == DOUBLE_MAX || exists i :: 0 <= i < |scan.points| && scan.points[i].y != 0.0 && min == scan.points[i].y
  {
    min := DOUBLE_MAX;
    var i := 0;
    while i < |scan.points|
      invariant 0 <= i <= |scan.points|
      invariant min <= DOUBLE_MAX
      invariant forall j :: 0 <= j < i && scan.points[j].y != 0.0 ==> min <= scan.points[j].y
      invariant min == DOUBLE_MAX || exists j :: 0 <= j < i && scan.points[j].y != 0.0 && min == scan.points[j].y
    {
      var d := scan.points[i].y;
      if d != 0.0 {
        min := if min > d then d else min;
      }
      i := i + 1;
    }
  }

  /** compareTo: -1, 0 or 1 by retention time. */
  function CompareScans(a: Scan, b: Scan): (r: int)
    ensures r == 0 <==> a.retentionTime == b.retentionTime
    ensures r < 0 <==> a.retentionTime < b.retentionTime
    ensures r > 0 <==> a.retentionTime > b.retentionTime
  {
    if a.retentionTime == b.retentionTime then 0 else if a.retentionTime > b.retentionTime then 1 else -1
  }

  /** The number of points whose m/z is below mz: where the binary search stops when mz is absent. */
  function InsertionPoint(xs: seq<real>, mz: real): nat
  {
    match FloorIndex(xs, mz)
    case None => 0
    case Some(f) => f + 1
  }

  /** The neighbour getNearestPoint picks after an unsuccessful search, exactly as written; None stands
      for the IndexOutOfBoundsException of a read at index -1. */
  function ChoiceAsWritten(xs: seq<real>, mz: real, low: nat): (r: Option<int>)
    requires low <= |xs|
    ensures r.Some? ==> 0 <= r.value < |xs|
  {
    if low == |xs| then (if low == 0 then None else Some(low - 1))
    else if low == |xs| - 1 then
      (if low == 0 then None else if xs[low] - mz > xs[low - 1] - mz then Some(low - 1) else Some(low))
    else if low == 0 then Some(0)
    else if xs[low] - mz > xs[low + 1] - mz then Some(low + 1)
    else if xs[low] - mz > xs[low - 1] - mz then Some(low - 1)
    else Some(low)
  }

  /** getNearestPoint as written, with the tolerance range of mz and ppm given as an interval. */
  function NearestPointAsWritten(points: seq<XYPoint>, mz: real, tolerance: Interval): (r: Result<Option<XYPoint>>)
    ensures |points| == 0 ==> r.Failure?
    ensures r.Success? && r.value.Some? ==> r.value.value in points
    ensures r.Success? && r.value.Some? ==> r.value.value.x == mz || Contains(tolerance, r.value.value.x)
  {
    var xs := Xs(points);
    var f := FloorIndex(xs, mz);
    if f.Some? && xs[f.value] == mz then Success(Some(points[f.value]))
    else match ChoiceAsWritten(xs, mz, InsertionPoint(xs, mz))
      case None => Failure("IndexOutOfBoundsException")
      case Some(ip) => if Contains(tolerance, xs[ip]) then Success(Some(points[ip])) else Success(None)
  }

  /** The binary search of getNearestPoint: the index of an exact match, or the insertion point. */
  method BinarySearch(list: seq<XYPoint>, mz: real) returns (found: Option<nat>, low: nat)
    requires StrictlyIncreasingX(list)
    ensures found.Some? ==> found.value < |list| && list[found.value].x == mz
    ensures found.None? ==> low <= |list| && low == InsertionPoint(Xs(list), mz)
    ensures found.None? ==> forall i :: 0 <= i < |list| ==> list[i].x != mz
  {
    low := 0;
    var high := |list| - 1;
    while low <= high
      invariant 0 <= low <= |list| && -1 <= high < |list| && low <= high + 1
      invariant forall i :: 0 <= i < low ==> list[i].x < mz
      invariant forall i :: high < i < |list| ==> list[i].x > mz
    {
      var mid := (low + high) / 2;
      var midPoint := list[mid];
      if midPoint.x < mz {
        low := mid + 1;
      } else if midPoint.x > mz {
        high := mid - 1;
      } else {
        return Some(mid), low;
      }
    }
    found := None;
    ghost var xs := Xs(list);
    if low > 0 { assert xs[low - 1] < mz; }
    if low < |xs| { assert xs[low] > mz; }
    assert InsertionPoint(xs, mz) == low;
  }

  /** getNearestPoint: the search, then the neighbour choice and the tolerance check. */
  method GetNearestPoint(scan: Scan, mz: real, tolerance: Interval) returns (r: Result<Option<XYPoint>>)
    requires StrictlyIncreasingX(scan.points)
    ensures r == NearestPointAsWritten(scan.points, mz, tolerance)
  {
    var list := scan.points;
    var found, low := BinarySearch(list, mz);
    if found.Some? {
      assert Xs(list)[found.value] == mz;
      assert FloorIndex(Xs(list), mz) == Some(found.value);
      return Success(Some(list[found.value]));
    }
    assert FloorIndex(Xs(list), mz).Some? ==> Xs(list)[FloorIndex(Xs(list), mz).value] != mz;
    var ip: int := low;
    if low == |list| {
      ip := (low as int) - 1;
    } else if low == |list| - 1 {
      if ip - 1 < 0 { return Failure("IndexOutOfBoundsException"); }
      if list[ip].x - mz > list[ip - 1].x - mz { ip := ip - 1; }
    } else if low == 0 {
      ip := low;
    } else {
      if list[ip].x - mz > list[ip + 1].x - mz { ip := ip + 1; }
      else if list[ip].x - mz > list[ip - 1].x - mz { ip := ip - 1; }
    }
    assert ip == -1 <==> ChoiceAsWritten(Xs(list), mz, low).None?;
    if ip < 0 { return Failure("IndexOutOfBoundsException"); }
    assert ChoiceAsWritten(Xs(list), mz, low) == Some(ip);
    if Contains(tolerance, list[ip].x) { r := Success(Some(list[ip])); } else { r := Success(None); }
  }

  /** An exact m/z match is returned whatever the tolerance. */
  lemma NearestPointExactMatch(points: seq<XYPoint>, mz: real, tolerance: Interval, k: nat)
    requires StrictlyIncreasingX(points) && k < |points| && points[k].x == mz
    ensures NearestPointAsWritten(points, mz, tolerance) == Success(Some(points[k]))
  {
    var xs := Xs(points);
  }

  /** Without an exact match the choice as written is always the lower neighbour of mz: the signed
      differences compare a positive value with a negative one. */
  lemma ChoiceAsWrittenIsLowerNeighbour(points: seq<XYPoint>, mz: real, low: nat)
    requires StrictlyIncreasingX(points) && 0 < low < |points|
    requires forall i :: 0 <= i < low ==> points[i].x < mz
    requires forall i :: low <= i < |points| ==> points[i].x > mz
    ensures ChoiceAsWritten(Xs(points), mz, low) == Some(low - 1)
  {
  }

  /** Two witnesses: m/z 2.9 between 2.0 and 3.0 yields the point at 2.0 however close 3.0 is, and a one-point
      scan queried below its point reads index -1. */
  lemma NearestPointAsWrittenCounterexamples(a: XYPoint, b: XYPoint, c: XYPoint)
    requires a == XYPoint(1.0, 5.0) && b == XYPoint(2.0, 5.0) && c == XYPoint(3.0, 5.0)
    ensures NearestPointAsWritten([a, b, c], 2.9, Interval(0.0, 10.0)) == Success(Some(b))
    ensures NearestPointAsWritten([c], 2.0, Interval(0.0, 10.0)).Failure?
  {
    var xs := Xs([a, b, c]);
    assert xs == [1.0, 2.0, 3.0];
    assert FloorIndex(xs, 2.9) == Some(1) by {
      assert xs[..2] == [1.0, 2.0];
    }
    assert Xs([c]) == [3.0];
    assert [3.0][..0] == [];
  }

  /** getNearestPoint as evidently intended: the point nearest to mz of the two neighbours (the lower one
      on a tie), kept only when it lies in the tolerance range. */
  function NearestPoint(points: seq<XYPoint>, mz: real, tolerance: Interval): (r: Option<XYPoint>)
    ensures r.Some? ==> r.value in points && Contains(tolerance, r.value.x)
    ensures r.Some? ==> r.value == points[NearestIndex(Xs(points), mz).value]
  {
    var xs := Xs(points);
    var i := NearestIndex(xs, mz);
    if i.Some? && Contains(tolerance, xs[i.value]) then Some(points[i.value]) else None
  }

  function NearestIndex(xs: seq<real>, mz: real): (r: Option<nat>)
    ensures r.Some? ==> r.value < |xs|
  {
    match (FloorIndex(xs, mz), HigherIndex(xs, mz))
    case (None, None) => None
    case (Some(f), None) => Some(f)
    case (None, Some(h)) => Some(h)
    case (Some(f), Some(h)) => if mz - xs[f] <= xs[h] - mz then Some(f) else Some(h)
  }

  /** The intended index is nearest among all points, exists for every non-empty scan, and is the
      exact match when there is one. */
  lemma {:induction false} NearestIndexIsNearest(xs: seq<real>, mz: real)
    requires StrictlySorted(xs)
    ensures NearestIndex(xs, mz).None? <==> |xs| == 0
    ensures NearestIndex(xs, mz).Some? ==>
              forall j :: 0 <= j < |xs| ==> Abs(mz - xs[NearestIndex(xs, mz).value]) <= Abs(mz - xs[j])
    ensures forall j :: 0 <= j < |xs| && xs[j] == mz ==> NearestIndex(xs, mz) == Some(j)
  {
    FloorOrHigherExists(xs, mz);
    FloorHigherAdjacent(xs, mz);
    var f, h := FloorIndex(xs, mz), HigherIndex(xs, mz);
    if |xs| > 0 {
      var r := NearestIndex(xs, mz).value;
      forall j | 0 <= j < |xs|
        ensures Abs(mz - xs[r]) <= Abs(mz - xs[j])
      {
        if f.Some? && j < f.value { assert xs[j] < xs[f.value]; }
        if h.Some? && j > h.value { assert xs[j] > xs[h.value]; }
      }
      forall j | 0 <= j < |xs| && xs[j] == mz
        ensures NearestIndex(xs, mz) == Some(j)
      {
      }
    }
  }
}
