/** ScanUtils: the centroid test, the cleaning of zero and duplicate points, the little-endian
    long codec of the binary data layer, and the scan copy with new points. */
module ScanUtils {
  import opened Wrappers
  import opened Numerics
  import opened Constants
  import opened Ranges
  import opened Points
  import opened LinkedMaps
  import opened Scans

  /** A spectrum needs more than this many points to be taken for profile data. */
  const MIN_PROFILE: nat := 10

  // ---------------------------------------------------------------- isCentroided

  /** The m/z range isCentroided builds: the range of the first x, extended by each of the first n points. */
  function Extent(list: seq<XYPoint>, n: nat): Interval
    requires 0 < |list| && n <= |list|
  {
    if n == 0 then Interval(list[0].x, list[0].x) else ExtendWith(Extent(list, n - 1), list[n - 1].x)
  }

  /** The extent is the smallest interval holding every x. */
  lemma {:induction false} ExtentIsMinMax(list: seq<XYPoint>, n: nat)
    requires 0 < |list| && n <= |list|
    ensures forall i :: 0 <= i < n ==> Extent(list, n).lower <= list[i].x <= Extent(list, n).upper
    ensures Extent(list, n).lower <= list[0].x <= Extent(list, n).upper
    ensures exists i :: 0 <= i < |list| && Extent(list, n).lower == list[i].x
    ensures exists i :: 0 <= i < |list| && Extent(list, n).upper == list[i].x
  {
    if n > 0 {
      ExtentIsMinMax(list, n - 1);
    }
  }

  /** The mass the gap of point j is measured from: the previous point's, the first point's for j = 0. */
  function PreviousMass(list: seq<XYPoint>, j: nat): real
    requires j < |list|
  {
    if j == 0 then list[0].x else list[j - 1].x
  }

  /** The centroid rule: at most MIN_PROFILE points, or no zero intensity, or a nonzero point more than
      1.5 mean mass steps away from its predecessor. */
  predicate Centroided(list: seq<XYPoint>)
  {
    |list| <= MIN_PROFILE ||
    (forall i :: 0 <= i < |list| ==> list[i].y != 0.0) ||
    (exists j :: 0 <= j < |list| && list[j].y != 0.0 &&
       Abs(list[j].x - PreviousMass(list, j)) > (Size(Extent(list, |list|)) / (|list| as real)) * 1.5)
  }

  /** isCentroided: the extent loop, then the gap loop with its early return. */
  method IsCentroided(list: seq<XYPoint>) returns (centroided: bool)
    ensures centroided == Centroided(list)
  {
    var dps := |list|;
    if dps <= MIN_PROFILE { return true; }
    var hasZeroDP := false;
    var mzRange := Interval(list[0].x, list[0].x);
    var i := 0;
    while i < dps
      invariant 0 <= i <= dps
      invariant mzRange == Extent(list, i)
      invariant hasZeroDP <==> exists k :: 0 <= k < i && list[k].y == 0.0
    {
      mzRange := ExtendWith(mzRange, list[i].x);
      if list[i].y == 0.0 { hasZeroDP := true; }
      i := i + 1;
    }
    if !hasZeroDP { return true; }
    var massStep := Size(mzRange) / (dps as real);
    var previousMass := list[0].x;
    var j := 0;
    while j < dps
      invariant 0 <= j <= dps
      invariant j > 0 ==> previousMass == list[j - 1].x
      invariant j == 0 ==> previousMass == list[0].x
      invariant forall k :: 0 <= k < j && list[k].y != 0.0 ==> !(Abs(list[k].x - PreviousMass(list, k)) > massStep * 1.5)
    {
      var diff := Abs(list[j].x - previousMass);
      previousMass := list[j].x;
      if list[j].y == 0.0 {
        j := j + 1;
        continue;
      } else if diff > massStep * 1.5 {
        return true;
      }
      j := j + 1;
    }
    return false;
  }

  // ----------------------------------------------- removeZeroAndDuplicateDataPoints

  /** The x the duplicate test compares point i with; the sentinel before the first point has x = -1. */
  function PrevX(list: seq<XYPoint>, i: nat): real
    requires i < |list|
  {
    if i == 0 then -1.0 else list[i - 1].x
  }

  /** The validity pass: no zero intensity and no x equal to the previous one. */
  predicate NeedsNoCleaning(list: seq<XYPoint>)
  {
    forall i :: 0 <= i < |list| ==> list[i].y != 0.0 && list[i].x != PrevX(list, i)
  }

  /** Whether point i survives the rebuild: not a duplicate, and either positive or, outside CENTROID
      mode, a zero-or-negative point beside a positive neighbour. */
  predicate Survives(list: seq<XYPoint>, mode: AcquisitionMode, i: nat)
    requires i < |list|
  {
    list[i].x != PrevX(list, i) &&
    (list[i].y > 0.0 ||
     (mode != Centroid && ((i > 0 && list[i - 1].y > 0.0) || (i < |list| - 1 && list[i + 1].y > 0.0))))
  }

  /** What the rebuild emits for a surviving point, as written: a positive point becomes (x, x). */
  function ImageAsWritten(p: XYPoint): XYPoint
  {
    if p.y > 0.0 then XYPoint(p.x, p.x) else p
  }

  /** The rebuilt list over the first n points, as written. */
  function RebuildAsWritten(list: seq<XYPoint>, mode: AcquisitionMode, n: nat): seq<XYPoint>
    requires n <= |list|
  {
    if n == 0 then []
    else RebuildAsWritten(list, mode, n - 1) + (if Survives(list, mode, n - 1) then [ImageAsWritten(list[n - 1])] else [])
  }

  /** removeZeroAndDuplicateDataPoints as written: the input when it is already clean or when the rebuild
      keeps every point, the rebuilt list otherwise. */
  function CleanedAsWritten(list: seq<XYPoint>, mode: AcquisitionMode): (r: seq<XYPoint>)
    ensures r == list || |r| < |list|
  {
    if NeedsNoCleaning(list) then list
    else
      RebuildKeepsInputPoints(list, mode, |list|);
      var rebuilt := RebuildAsWritten(list, mode, |list|);
      if |rebuilt| == |list| then list else rebuilt
  }

  method RemoveZeroAndDuplicateDataPoints(list: seq<XYPoint>, mode: AcquisitionMode) returns (r: seq<XYPoint>)
    ensures r == CleanedAsWritten(list, mode)
  {
    var prevX := -1.0;
    var isValid := true;
    var k := 0;
    while k < |list|
      invariant 0 <= k <= |list|
      invariant prevX == if k == 0 then -1.0 else list[k - 1].x
      invariant isValid ==> forall i :: 0 <= i < k ==> list[i].y != 0.0 && list[i].x != PrevX(list, i)
      invariant !isValid ==> !NeedsNoCleaning(list)
    {
      if list[k].y == 0.0 || list[k].x == prevX {
        isValid := false;
        break;
      }
      prevX := list[k].x;
      k := k + 1;
    }
    if isValid { return list; }

    prevX := -1.0;
    var newList: seq<XYPoint> := [];
    var i := 0;
    while i < |list|
      invariant 0 <= i <= |list|
      invariant prevX == if i == 0 then -1.0 else list[i - 1].x
      invariant newList == RebuildAsWritten(list, mode, i)
    {
      var p := list[i];
      if p.x == prevX {
        prevX := p.x;
        i := i + 1;
        continue;
      }
      prevX := p.x;
      if p.y > 0.0 {
        newList := newList + [XYPoint(p.x, p.x)];
        i := i + 1;
        continue;
      }
      if mode != Centroid {
        if i > 0 && list[i - 1].y > 0.0 {
          newList := newList + [list[i]];
          i := i + 1;
          continue;
        }
        if i < |list| - 1 && list[i + 1].y > 0.0 {
          newList := newList + [list[i]];
          i := i + 1;
          continue;
        }
      }
      i := i + 1;
    }
    if |newList| == |list| { return list; }
    return newList;
  }

  /** The rebuilt list over the first n points as evidently intended: surviving points unchanged. */
  function Rebuild(list: seq<XYPoint>, mode: AcquisitionMode, n: nat): seq<XYPoint>
    requires n <= |list|
  {
    if n == 0 then []
    else Rebuild(list, mode, n - 1) + (if Survives(list, mode, n - 1) then [list[n - 1]] else [])
  }

  /** removeZeroAndDuplicateDataPoints as evidently intended. */
  function Cleaned(list: seq<XYPoint>, mode: AcquisitionMode): (r: seq<XYPoint>)
    ensures r == list || |r| < |list|
    ensures forall p :: p in r ==> p in list
  {
    if NeedsNoCleaning(list) then list
    else
      RebuildKeepsInputPoints(list, mode, |list|);
      var rebuilt := Rebuild(list, mode, |list|);
      if |rebuilt| == |list| then list else rebuilt
  }

  /** Every rebuilt point is a surviving input point, in input order. */
  lemma {:induction false} RebuildKeepsInputPoints(list: seq<XYPoint>, mode: AcquisitionMode, n: nat)
    requires n <= |list|
    ensures |Rebuild(list, mode, n)| <= n
    ensures |RebuildAsWritten(list, mode, n)| == |Rebuild(list, mode, n)|
    ensures forall p :: p in Rebuild(list, mode, n) ==>
              exists i :: 0 <= i < n && list[i] == p && Survives(list, mode, i)
  {
    if n > 0 {
      RebuildKeepsInputPoints(list, mode, n - 1);
    }
  }

  /** Every surviving point among the first n is in the rebuilt list. */
  lemma {:induction false} RebuildHoldsSurvivors(list: seq<XYPoint>, mode: AcquisitionMode, n: nat)
    requires n <= |list|
    ensures forall i :: 0 <= i < n && Survives(list, mode, i) ==> list[i] in Rebuild(list, mode, n)
  {
    if n > 0 {
      RebuildHoldsSurvivors(list, mode, n - 1);
    }
  }

  /** The indices of the first n points that survive the rebuild, in increasing order. */
  function SurvivorIndices(list: seq<XYPoint>, mode: AcquisitionMode, n: nat): (r: seq<nat>)
    requires n <= |list|
    ensures forall k :: 0 <= k < |r| ==> r[k] < n
    ensures forall k, l :: 0 <= k < l < |r| ==> r[k] < r[l]
    ensures forall i :: 0 <= i < n ==> (i in r <==> Survives(list, mode, i))
  {
    if n == 0 then []
    else SurvivorIndices(list, mode, n - 1) + (if Survives(list, mode, n - 1) then [n - 1] else [])
  }

  /** The rebuild is the in-order subsequence of the surviving points: its k-th point is the input
      point at the k-th surviving index. */
  lemma {:induction false} RebuildPicksSurvivors(list: seq<XYPoint>, mode: AcquisitionMode, n: nat)
    requires n <= |list|
    ensures var S := SurvivorIndices(list, mode, n);
      |Rebuild(list, mode, n)| == |S| &&
      forall k :: 0 <= k < |S| ==> Rebuild(list, mode, n)[k] == list[S[k]]
  {
    if n > 0 {
      RebuildPicksSurvivors(list, mode, n - 1);
    }
  }

  /** A rebuild that keeps as many points as it reads keeps every one of them. */
  lemma {:induction false} FullRebuildIsPrefix(list: seq<XYPoint>, mode: AcquisitionMode, n: nat)
    requires n <= |list| && |Rebuild(list, mode, n)| == n
    ensures Rebuild(list, mode, n) == list[..n]
  {
    if n > 0 {
      RebuildKeepsInputPoints(list, mode, n - 1);
      FullRebuildIsPrefix(list, mode, n - 1);
      assert list[..n] == list[..n - 1] + [list[n - 1]];
    }
  }

  /** The corrected cleaning is complete as well as sound: a clean input comes back whole; otherwise the
      result is exactly the surviving points in input order, so every surviving point is kept, with
      its intensity. */
  lemma CleanedKeepsSurvivors(list: seq<XYPoint>, mode: AcquisitionMode)
    ensures NeedsNoCleaning(list) ==> Cleaned(list, mode) == list
    ensures !NeedsNoCleaning(list) ==> Cleaned(list, mode) == Rebuild(list, mode, |list|)
    ensures var S := SurvivorIndices(list, mode, |list|);
      !NeedsNoCleaning(list) ==>
        |Cleaned(list, mode)| == |S| && forall k :: 0 <= k < |S| ==> Cleaned(list, mode)[k] == list[S[k]]
    ensures forall i :: 0 <= i < |list| && Survives(list, mode, i) ==> list[i] in Cleaned(list, mode)
  {
    RebuildPicksSurvivors(list, mode, |list|);
    if !NeedsNoCleaning(list) && |Rebuild(list, mode, |list|)| == |list| {
      FullRebuildIsPrefix(list, mode, |list|);
      assert list[..|list|] == list;
    }
    var S := SurvivorIndices(list, mode, |list|);
    forall i | 0 <= i < |list| && Survives(list, mode, i)
      ensures list[i] in Cleaned(list, mode)
    {
      if !NeedsNoCleaning(list) {
        var k :| 0 <= k < |S| && S[k] == i;
        assert Cleaned(list, mode)[k] == list[i];
      }
    }
  }

  /** The cleaned list holds only input points; in CENTROID mode none of them has zero intensity, and no
      surviving positive point loses its intensity. The input comes back untouched when it is clean. */
  lemma CleanedKeepsIntensities(list: seq<XYPoint>, mode: AcquisitionMode)
    ensures forall p :: p in Cleaned(list, mode) ==> p in list
    ensures mode == Centroid ==> forall p :: p in Cleaned(list, mode) ==> p.y != 0.0
    ensures NeedsNoCleaning(list) ==> Cleaned(list, mode) == list && CleanedAsWritten(list, mode) == list
    ensures |Cleaned(list, mode)| == |CleanedAsWritten(list, mode)|
  {
    RebuildKeepsInputPoints(list, mode, |list|);
    if mode == Centroid && !NeedsNoCleaning(list) {
      var k :| 0 <= k < |list| && !(list[k].y != 0.0 && list[k].x != PrevX(list, k));
      if |Rebuild(list, mode, |list|)| == |list| {
        RebuildDropsNonSurvivor(list, mode, |list|, k);
      }
    }
  }

  /** A point that does not survive makes the rebuilt list shorter than the input. */
  lemma {:induction false} RebuildDropsNonSurvivor(list: seq<XYPoint>, mode: AcquisitionMode, n: nat, k: nat)
    requires k < n <= |list| && !Survives(list, mode, k)
    ensures |Rebuild(list, mode, n)| < n
  {
    RebuildKeepsInputPoints(list, mode, n - 1);
    if k < n - 1 {
      RebuildDropsNonSurvivor(list, mode, n - 1, k);
    }
  }

  /** In profile mode a zero point beside a positive, non-duplicate neighbour survives the rebuild. */
  lemma ZeroBesidePeakSurvives(list: seq<XYPoint>, i: nat)
    requires i < |list| && list[i].y == 0.0 && list[i].x != PrevX(list, i)
    requires (i > 0 && list[i - 1].y > 0.0) || (i < |list| - 1 && list[i + 1].y > 0.0)
    ensures Survives(list, Profile, i) && !Survives(list, Centroid, i)
    ensures list[i] in Cleaned(list, Profile)
  {
    assert Survives(list, Profile, i);
    RebuildHoldsSurvivors(list, Profile, |list|);
  }

  /** As written, a centroid spectrum with one zero point loses the intensity of its peak: (2, 5) is
      returned as (2, 2). */
  lemma CleanedAsWrittenReplacesIntensity(p: XYPoint, q: XYPoint)
    requires p == XYPoint(1.0, 0.0) && q == XYPoint(2.0, 5.0)
    ensures CleanedAsWritten([p, q], Centroid) == [XYPoint(2.0, 2.0)]
    ensures Cleaned([p, q], Centroid) == [q]
  {
    var l := [p, q];
    assert !NeedsNoCleaning(l) by { assert l[0].y == 0.0; }
    assert !Survives(l, Centroid, 0) && Survives(l, Centroid, 1);
    assert RebuildAsWritten(l, Centroid, 1) == [];
    assert RebuildAsWritten(l, Centroid, 2) == [XYPoint(2.0, 2.0)];
    assert Rebuild(l, Centroid, 1) == [];
    assert Rebuild(l, Centroid, 2) == [q];
  }

  // ------------------------------------------------------ little-endian long codec

  const TWO_63: int := 0x8000_0000_0000_0000
  const TWO_64: int := 0x1_0000_0000_0000_0000

  predicate IsLong(v: int) { -TWO_63 <= v < TWO_63 }

  function Pow256(k: nat): (r: nat)
    ensures r > 0
  {
    if k == 0 then 1 else 256 * Pow256(k - 1)
  }

  /** The k low-order bytes of u, least significant first. */
  function LowBytes(u: nat, k: nat): (r: seq<byte>)
    ensures |r| == k
  {
    if k == 0 then [] else [(u % 256) as byte] + LowBytes(u / 256, k - 1)
  }

  /** The unsigned value of bytes read least significant first. */
  function LittleEndianValue(bs: seq<byte>): nat
  {
    if |bs| == 0 then 0 else (bs[0] as nat) + 256 * LittleEndianValue(bs[1..])
  }

  lemma {:induction false} LowBytesValue(u: nat, k: nat)
    requires u < Pow256(k)
    ensures LittleEndianValue(LowBytes(u, k)) == u
  {
    if k > 0 {
      assert u / 256 < Pow256(k - 1);
      LowBytesValue(u / 256, k - 1);
      assert LowBytes(u, k)[1..] == LowBytes(u / 256, k - 1);
    }
  }

  lemma {:induction false} LittleEndianValueBound(bs: seq<byte>)
    ensures LittleEndianValue(bs) < Pow256(|bs|)
  {
    if |bs| > 0 {
      LittleEndianValueBound(bs[1..]);
    }
  }

  /** ByteBuffer.putLong in LITTLE_ENDIAN order: the two's-complement bits, low byte first. */
  function LongToBytes(v: int): (r: seq<byte>)
    requires IsLong(v)
    ensures |r| == 8
  {
    LowBytes(if v < 0 then v + TWO_64 else v, 8)
  }

  /** ByteBuffer.getLong in LITTLE_ENDIAN order. */
  function BytesToLong(bs: seq<byte>): (v: int)
    requires |bs| == 8
    ensures IsLong(v)
  {
    LittleEndianValueBound(bs);
    assert Pow256(8) == TWO_64;
    var u := LittleEndianValue(bs);
    if u >= TWO_63 then u - TWO_64 else u
  }

  /** getLong reads back what putLong wrote. */
  lemma LongRoundTrip(v: int)
    requires IsLong(v)
    ensures BytesToLong(LongToBytes(v)) == v
  {
    assert Pow256(8) == TWO_64;
    LowBytesValue(if v < 0 then v + TWO_64 else v, 8);
  }

  /** The buffer of set64BitLongArrayAsBinaryData before compression and Base64. */
  function EncodeLongs(values: seq<int>): (r: seq<byte>)
    requires forall i :: 0 <= i < |values| ==> IsLong(values[i])
    ensures |r| == 8 * |values|
  {
    if |values| == 0 then [] else EncodeLongs(values[..|values| - 1]) + LongToBytes(values[|values| - 1])
  }

  /** set64BitLongArrayAsBinaryData: fill the little-endian buffer and return its uncompressed length. */
  method Set64BitLongArrayAsBinaryData(values: seq<int>) returns (data: seq<byte>, dataLength: int)
    requires forall i :: 0 <= i < |values| ==> IsLong(values[i])
    ensures data == EncodeLongs(values)
    ensures dataLength == 8 * |values|
    ensures forall k :: 0 <= k < |values| ==> BytesToLong(data[8 * k .. 8 * k + 8]) == values[k]
  {
    data := [];
    var i := 0;
    while i < |values|
      invariant 0 <= i <= |values|
      invariant data == EncodeLongs(values[..i])
    {
      assert values[..i + 1][..i] == values[..i];
      data := data + LongToBytes(values[i]);
      i := i + 1;
    }
    assert values[..i] == values;
    dataLength := |data|;
    EncodeLongsAt(values);
  }

  lemma {:induction false} EncodeLongsAt(values: seq<int>)
    requires forall i :: 0 <= i < |values| ==> IsLong(values[i])
    ensures forall k :: 0 <= k < |values| ==> EncodeLongs(values)[8 * k .. 8 * k + 8] == LongToBytes(values[k])
    ensures forall k :: 0 <= k < |values| ==> BytesToLong(EncodeLongs(values)[8 * k .. 8 * k + 8]) == values[k]
  {
    if |values| > 0 {
      var init := values[..|values| - 1];
      EncodeLongsAt(init);
      var e := EncodeLongs(values);
      assert e == EncodeLongs(init) + LongToBytes(values[|values| - 1]);
      forall k | 0 <= k < |values|
        ensures e[8 * k .. 8 * k + 8] == LongToBytes(values[k])
      {
        if k < |init| {
          assert e[8 * k .. 8 * k + 8] == EncodeLongs(init)[8 * k .. 8 * k + 8];
        }
      }
      forall k | 0 <= k < |values|
        ensures BytesToLong(e[8 * k .. 8 * k + 8]) == values[k]
      {
        LongRoundTrip(values[k]);
      }
    }
  }

  /** Java's (int) cast of a long: the low 32 bits, read as two's complement. */
  function LongToInt(v: int): (r: int)
    ensures INT_MIN <= r <= INT_MAX
    ensures INT_MIN <= v <= INT_MAX ==> r == v
  {
    var u := v % 0x1_0000_0000;
    if u >= 0x8000_0000 then u - 0x1_0000_0000 else u
  }

  /** The (int-cast index, pointer) records of a buffer whose length is a multiple of 16. */
  function Records(data: seq<byte>): (r: seq<(int, int)>)
    requires |data| % 16 == 0
    ensures |r| == |data| / 16
    decreases |data|
  {
    if |data| == 0 then []
    else Records(data[..|data| - 16]) +
         [(LongToInt(BytesToLong(data[|data| - 16 .. |data| - 8])), BytesToLong(data[|data| - 8..]))]
  }

  /** Each record put into the insertion-ordered map in turn. */
  function PutAll(m: seq<(int, int)>, records: seq<(int, int)>): seq<(int, int)>
    decreases |records|
  {
    if |records| == 0 then m else PutAll(Put(m, records[0].0, records[0].1), records[1..])
  }

  /** get64BitLongArrayFromBinaryData after decoding: a length that is not a multiple of 16 makes a
      getLong read past the end (IndexOutOfBoundsException). */
  function DecodeLongPairs(data: seq<byte>): Result<seq<(int, int)>>
  {
    if |data| % 16 != 0 then Failure("IndexOutOfBoundsException") else Success(PutAll([], Records(data)))
  }

  method Get64BitLongArrayFromBinaryData(data: seq<byte>) returns (r: Result<seq<(int, int)>>)
    ensures r == DecodeLongPairs(data)
  {
    var results: seq<(int, int)> := [];
    var indexOut := 0;
    while indexOut < |data|
      invariant 0 <= indexOut <= |data| && indexOut % 16 == 0
      invariant PutAll([], Records(data[..indexOut])) == results
    {
      if indexOut + 8 > |data| || indexOut + 16 > |data| {
        PartialRecord(|data|, indexOut);
        return Failure("IndexOutOfBoundsException");
      }
      var i := LongToInt(BytesToLong(data[indexOut .. indexOut + 8]));
      var p := BytesToLong(data[indexOut + 8 .. indexOut + 16]);
      RecordsStep(data, indexOut);
      PutAllSnoc([], Records(data[..indexOut]), (i, p));
      results := Put(results, i, p);
      indexOut := indexOut + 16;
    }
    assert data[..indexOut] == data;
    r := Success(results);
  }

  /** A read that starts on a record boundary and runs past the end means the length is not a multiple of 16. */
  lemma PartialRecord(len: nat, k: nat)
    requires k % 16 == 0 && k < len < k + 16
    ensures len % 16 != 0
  {
  }

  /** Reading one more 16-byte record extends the decoded records by that record. */
  lemma RecordsStep(data: seq<byte>, k: nat)
    requires k % 16 == 0 && k + 16 <= |data|
    ensures Records(data[..k + 16]) ==
            Records(data[..k]) + [(LongToInt(BytesToLong(data[k .. k + 8])), BytesToLong(data[k + 8 .. k + 16]))]
  {
    assert data[..k + 16] == data[..k] + data[k .. k + 8] + data[k + 8 .. k + 16];
    RecordsSnoc(data[..k], data[k .. k + 8], data[k + 8 .. k + 16]);
  }

  lemma {:induction false} PutAllSnoc(m: seq<(int, int)>, records: seq<(int, int)>, last: (int, int))
    ensures PutAll(m, records + [last]) == Put(PutAll(m, records), last.0, last.1)
    decreases |records|
  {
    if |records| > 0 {
      assert (records + [last])[1..] == records[1..] + [last];
      PutAllSnoc(Put(m, records[0].0, records[0].1), records[1..], last);
    } else {
      assert [last][1..] == [];
    }
  }

  /** Interleaves (index, pointer) pairs into the flat long array the encoder takes. */
  function Interleave(pairs: seq<(int, int)>): (r: seq<int>)
    ensures |r| == 2 * |pairs|
  {
    if |pairs| == 0 then [] else Interleave(pairs[..|pairs| - 1]) + [pairs[|pairs| - 1].0, pairs[|pairs| - 1].1]
  }

  /** Distinct int-range indices with long pointers survive encoding and decoding in order. */
  lemma {:induction false} LongPairsRoundTrip(pairs: seq<(int, int)>)
    requires forall k :: 0 <= k < |pairs| ==> INT_MIN <= pairs[k].0 <= INT_MAX && IsLong(pairs[k].1)
    requires DistinctKeys(pairs)
    ensures forall k :: 0 <= k < |Interleave(pairs)| ==> IsLong(Interleave(pairs)[k])
    ensures DecodeLongPairs(EncodeLongs(Interleave(pairs))) == Success(pairs)
  {
    RecordsOfEncoding(pairs);
    PutAllDistinct(pairs);
  }

  lemma {:induction false} RecordsOfEncoding(pairs: seq<(int, int)>)
    requires forall k :: 0 <= k < |pairs| ==> INT_MIN <= pairs[k].0 <= INT_MAX && IsLong(pairs[k].1)
    ensures forall k :: 0 <= k < |Interleave(pairs)| ==> IsLong(Interleave(pairs)[k])
    ensures |EncodeLongs(Interleave(pairs))| % 16 == 0
    ensures Records(EncodeLongs(Interleave(pairs))) == pairs
  {
    if |pairs| > 0 {
      var init := pairs[..|pairs| - 1];
      var last := pairs[|pairs| - 1];
      RecordsOfEncoding(init);
      var li := Interleave(init);
      var l := Interleave(pairs);
      assert l == li + [last.0, last.1];
      assert l[..|l| - 2] == li && l[|l| - 2] == last.0 && l[|l| - 1] == last.1;
      EncodeLongsSnocPair(l);
      RecordsSnoc(EncodeLongs(li), LongToBytes(last.0), LongToBytes(last.1));
      LongRoundTrip(last.0);
      LongRoundTrip(last.1);
      assert (LongToInt(BytesToLong(LongToBytes(last.0))), BytesToLong(LongToBytes(last.1))) == last;
      SnocLast(pairs);
    }
  }

  lemma SnocLast<T>(s: seq<T>)
    requires |s| > 0
    ensures s == s[..|s| - 1] + [s[|s| - 1]]
  {
  }

  /** The encoding of a list is that of the list without its last two values, followed by their
      encodings. */
  lemma EncodeLongsSnocPair(values: seq<int>)
    requires |values| >= 2 && forall k :: 0 <= k < |values| ==> IsLong(values[k])
    ensures EncodeLongs(values) ==
      EncodeLongs(values[..|values| - 2]) + LongToBytes(values[|values| - 2]) + LongToBytes(values[|values| - 1])
  {
    var n := |values|;
    var la := values[..n - 1];
    assert la[..n - 2] == values[..n - 2];
    assert EncodeLongs(la) == EncodeLongs(la[..n - 2]) + LongToBytes(la[n - 2]);
  }

  /** The records of a buffer with one more (key, value) record at its end. */
  lemma RecordsSnoc(data: seq<byte>, key: seq<byte>, value: seq<byte>)
    requires |data| % 16 == 0 && |key| == 8 && |value| == 8
    ensures Records(data + key + value) == Records(data) + [(LongToInt(BytesToLong(key)), BytesToLong(value))]
  {
    var e := data + key + value;
    assert e[..|e| - 16] == data;
    assert e[|e| - 16 .. |e| - 8] == key;
    assert e[|e| - 8..] == value;
  }

  lemma {:induction false} PutAllDistinct(pairs: seq<(int, int)>)
    requires DistinctKeys(pairs)
    ensures PutAll([], pairs) == pairs
  {
    PutAllAppendsFresh([], pairs);
  }

  lemma {:induction false} PutAllAppendsFresh(m: seq<(int, int)>, records: seq<(int, int)>)
    requires DistinctKeys(m + records)
    ensures PutAll(m, records) == m + records
    decreases |records|
  {
    if |records| > 0 {
      var k := records[0].0;
      assert (m + records)[|m|] == records[0];
      assert k !in Keys(m) by {
        forall i | 0 <= i < |m| ensures m[i].0 != k {
          assert (m + records)[i] == m[i];
        }
      }
      assert m + [records[0]] + records[1..] == m + records;
      PutAllAppendsFresh(m + [records[0]], records[1..]);
    }
  }

  // ------------------------------------------------------------- getModifiedScan

  /** getModifiedScan: a minimal scan over new points that keeps the template's index, level, ion mode,
      retention time and parent fields. */
  method GetModifiedScan(scan: Scan, dataPoints: seq<XYPoint>) returns (r: Scan)
    ensures r.index == scan.index && r.msn == scan.msn && r.ionMode == scan.ionMode
    ensures r.retentionTime == scan.retentionTime && r.parentScan == scan.parentScan
    ensures r.parentCharge == scan.parentCharge && r.parentMz == scan.parentMz
    ensures r.points == dataPoints
    ensures |dataPoints| > 0 ==> r.totalIonCurrent == Sum(Ys(dataPoints))
    ensures |dataPoints| > 0 ==> r.mzRange == Interval(dataPoints[0].x, dataPoints[|dataPoints| - 1].x)
    ensures |dataPoints| > 0 ==> r.basePeak == [dataPoints[BaseSearch(Ys(dataPoints)).baseIndex]]
    ensures |dataPoints| == 0 ==> r.mzRange == Interval(0.0, 0.0) && r.totalIonCurrent == 0.0 && r.basePeak == []
  {
    r := MinimalScan(scan.index, scan.msn, scan.ionMode, dataPoints, scan.retentionTime,
                     scan.parentScan, scan.parentCharge, scan.parentMz);
  }
}
