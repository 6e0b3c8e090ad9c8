/** MemoryRawContainer: the in-memory raw file. Scans are kept per MSn layer in insertion-ordered maps
    from scan index to scan, beside one RawLevel per layer and the chromatogram buffers that
    finaliseFile turns into chromatograms. */
module RawContainers {
  import opened Wrappers
  import opened Constants
  import opened Ranges
  import opened Points
  import opened LinkedMaps
  import opened Scans

  /** A RawLevel: the retention-time range, m/z range, ion mode and level of one layer. */
  datatype RawLevel = RawLevel(scanRange: Interval, mzRange: Interval, ionMode: Option<IonMode>, msn: MSN)

  /** The constants of Constants.MSN in declaration order, as MSN.values() yields them. */
  const AllLevels: seq<MSN> := [MS1, MS2, MS3, MS4, MSn]

  lemma AllLevelsByLvl(m: MSN)
    ensures AllLevels[Lvl(m) - 1] == m
  {
  }

  lemma LvlOfLevel(k: nat)
    requires k < |AllLevels|
    ensures Lvl(AllLevels[k]) == k + 1
  {
  }

  /** The point a scan contributes to the TIC buffer of its level. */
  function TicPoint(scan: Scan): XYPoint
  {
    XYPoint(scan.retentionTime, scan.totalIonCurrent)
  }

  /** Whether a scan contributes a base-peak point: an MS1 scan with a non-empty base peak. */
  predicate HasBasePoint(scan: Scan)
  {
    scan.msn == MS1 && |scan.basePeak| > 0
  }

  /** The value of a level buffer with one more point at its end. */
  function Appended(buffers: seq<(MSN, seq<XYPoint>)>, msn: MSN, p: XYPoint): seq<(MSN, seq<XYPoint>)>
    requires msn in Keys(buffers)
  {
    Put(buffers, msn, LinkedMaps.Get(buffers, msn).value + [p])
  }

  /** The layers after addScan files a scan: into the layer at its level's position when that layer
      exists, replacing a scan of the same index, and otherwise into a new layer at the end. */
  function StoredScans(layers: seq<seq<(int, Scan)>>, scan: Scan): seq<seq<(int, Scan)>>
  {
    var l := Lvl(scan.msn) - 1;
    if l < |layers| then layers[l := Put(layers[l], scan.index, scan)] else layers + [[(scan.index, scan)]]
  }

  /** The layers after filing a list of scans in order. */
  function StoredAll(layers: seq<seq<(int, Scan)>>, scans: seq<Scan>): seq<seq<(int, Scan)>>
  {
    if |scans| == 0 then layers else StoredScans(StoredAll(layers, scans[..|scans| - 1]), scans[|scans| - 1])
  }

  /** Filing two lists one after the other files their concatenation. */
  lemma {:induction false} StoredAllAppend(layers: seq<seq<(int, Scan)>>, first: seq<Scan>, second: seq<Scan>)
    ensures StoredAll(StoredAll(layers, first), second) == StoredAll(layers, first + second)
    decreases |second|
  {
    if |second| > 0 {
      StoredAllAppend(layers, first, second[..|second| - 1]);
      assert (first + second)[..|first + second| - 1] == first + second[..|second| - 1];
    } else {
      assert first + second == first;
    }
  }

  /** A filed scan is the one its layer then holds under its index; every other layer is as it was, and
      a new layer is opened only when the level's position is past the last layer. */
  lemma StoredScansHoldsScan(layers: seq<seq<(int, Scan)>>, scan: Scan)
    requires forall l :: 0 <= l < |layers| ==> DistinctKeys(layers[l])
    ensures var r := StoredScans(layers, scan);
            var l := if Lvl(scan.msn) - 1 < |layers| then Lvl(scan.msn) - 1 else |layers|;
            |r| == (if l < |layers| then |layers| else |layers| + 1) &&
            LinkedMaps.Get(r[l], scan.index) == Some(scan) &&
            forall l' :: 0 <= l' < |layers| && l' != l ==> r[l'] == layers[l']
  {
    var l := Lvl(scan.msn) - 1;
    if l < |layers| {
      PutGet(layers[l], scan.index, scan, scan.index);
    }
  }

  /** getScan over the layers: the scan of the first layer holding the index. */
  function FindScan(levels: seq<seq<(int, Scan)>>, i: int): Option<Scan>
  {
    if |levels| == 0 then None
    else if LinkedMaps.Get(levels[0], i).Some? then LinkedMaps.Get(levels[0], i)
    else FindScan(levels[1..], i)
  }

  /** FindScan finds a scan iff some layer holds the index, and then it is the scan the first such layer holds. */
  lemma {:induction false} FindScanIsFirstHolder(levels: seq<seq<(int, Scan)>>, i: int)
    ensures FindScan(levels, i).Some? <==> exists l :: 0 <= l < |levels| && i in Keys(levels[l])
    ensures FindScan(levels, i).Some? ==>
              exists l :: 0 <= l < |levels| && LinkedMaps.Get(levels[l], i) == FindScan(levels, i) &&
                          forall l' :: 0 <= l' < l ==> i !in Keys(levels[l'])
  {
    if |levels| > 0 {
      if LinkedMaps.Get(levels[0], i).Some? {
        assert i in Keys(levels[0]);
      } else {
        var rest := levels[1..];
        FindScanIsFirstHolder(rest, i);
        assert FindScan(levels, i) == FindScan(rest, i);
        if exists l :: 0 <= l < |levels| && i in Keys(levels[l]) {
          var l :| 0 <= l < |levels| && i in Keys(levels[l]);
          assert l > 0 && rest[l - 1] == levels[l];
        }
        if FindScan(rest, i).Some? {
          var l :| 0 <= l < |rest| && LinkedMaps.Get(rest[l], i) == FindScan(rest, i) &&
                   forall l' :: 0 <= l' < l ==> i !in Keys(rest[l']);
          assert rest[l] == levels[l + 1];
          forall l' | 0 <= l' < l + 1 ensures i !in Keys(levels[l']) {
            if l' > 0 { assert rest[l' - 1] == levels[l']; }
          }
        }
      }
    }
  }

  /** What one scan of the second layer contributes to the parent-daughter map: nothing when its parent
      m/z is zero, otherwise its parent scan and the daughter-index to parent-m/z entry. */
  function DaughterEntry(found: Option<Scan>): Option<(int, map<int, real>)>
  {
    if found.Some? && found.value.parentMz != 0.0
    then Some((found.value.parentScan, map[found.value.index := found.value.parentMz]))
    else None
  }

  /** The contributions of the second layer's scans in insertion order, each looked up by getScan. */
  function Daughters(levels: seq<seq<(int, Scan)>>): (ds: seq<Option<(int, map<int, real>)>>)
    requires |levels| >= 2
    ensures |ds| == |levels[1]|
  {
    seq(|levels[1]|, j requires 0 <= j < |levels[1]| => DaughterEntry(FindScan(levels, levels[1][j].0)))
  }

  /** The map loop: skip empty contributions and stop at the first parent already present. */
  function Collect(ds: seq<Option<(int, map<int, real>)>>, acc: map<int, map<int, real>>): map<int, map<int, real>>
    decreases |ds|
  {
    if |ds| == 0 then acc
    else if ds[0].None? then Collect(ds[1..], acc)
    else if ds[0].value.0 in acc then acc
    else Collect(ds[1..], acc[ds[0].value.0 := ds[0].value.1])
  }

  /** getMSnParentDaughterMap: empty with fewer than two layers. */
  function DaughterMap(levels: seq<seq<(int, Scan)>>): map<int, map<int, real>>
  {
    if |levels| < 2 then map[] else Collect(Daughters(levels), map[])
  }

  /** Every entry of the collected map is the accumulator's or the contribution of one daughter scan. */
  lemma {:induction false} CollectSound(ds: seq<Option<(int, map<int, real>)>>, acc: map<int, map<int, real>>)
    ensures forall p :: p in Collect(ds, acc) ==>
              (p in acc && Collect(ds, acc)[p] == acc[p]) ||
              exists j :: 0 <= j < |ds| && ds[j] == Some((p, Collect(ds, acc)[p]))
    decreases |ds|
  {
    if |ds| > 0 && ds[0].Some? && ds[0].value.0 !in acc {
      var acc' := acc[ds[0].value.0 := ds[0].value.1];
      CollectSound(ds[1..], acc');
      forall p | p in Collect(ds, acc) && !(p in acc && Collect(ds, acc)[p] == acc[p])
        ensures exists j :: 0 <= j < |ds| && ds[j] == Some((p, Collect(ds, acc)[p]))
      {
        if p in acc' && Collect(ds, acc)[p] == acc'[p] {
          assert p == ds[0].value.0;
          assert ds[0] == Some((p, Collect(ds, acc)[p]));
        } else {
          var j :| 0 <= j < |ds[1..]| && ds[1..][j] == Some((p, Collect(ds[1..], acc')[p]));
          assert ds[j + 1] == Some((p, Collect(ds, acc)[p]));
        }
      }
    } else if |ds| > 0 && ds[0].None? {
      CollectSound(ds[1..], acc);
      forall p | p in Collect(ds, acc) && !(p in acc && Collect(ds, acc)[p] == acc[p])
        ensures exists j :: 0 <= j < |ds| && ds[j] == Some((p, Collect(ds, acc)[p]))
      {
        var j :| 0 <= j < |ds[1..]| && ds[1..][j] == Some((p, Collect(ds[1..], acc)[p]));
        assert ds[j + 1] == Some((p, Collect(ds, acc)[p]));
      }
    }
  }

  /** With pairwise distinct parents, none of them already present, every contribution is in the map. */
  lemma {:induction false} CollectComplete(ds: seq<Option<(int, map<int, real>)>>, acc: map<int, map<int, real>>)
    requires forall j :: 0 <= j < |ds| && ds[j].Some? ==> ds[j].value.0 !in acc
    requires forall j, k :: 0 <= j < k < |ds| && ds[j].Some? && ds[k].Some? ==> ds[j].value.0 != ds[k].value.0
    ensures forall j :: 0 <= j < |ds| && ds[j].Some? ==>
              ds[j].value.0 in Collect(ds, acc) && Collect(ds, acc)[ds[j].value.0] == ds[j].value.1
    decreases |ds|
  {
    if |ds| > 0 {
      var acc' := if ds[0].Some? then acc[ds[0].value.0 := ds[0].value.1] else acc;
      assert forall j :: 0 <= j < |ds[1..]| ==> ds[1..][j] == ds[j + 1];
      CollectComplete(ds[1..], acc');
      CollectKeepsAccumulator(ds[1..], acc');
      assert Collect(ds, acc) == Collect(ds[1..], acc');
      forall j | 0 <= j < |ds| && ds[j].Some?
        ensures ds[j].value.0 in Collect(ds, acc) && Collect(ds, acc)[ds[j].value.0] == ds[j].value.1
      {
        if j > 0 {
          assert ds[1..][j - 1] == ds[j];
        }
      }
    }
  }

  /** The loop never changes an entry once made. */
  lemma {:induction false} CollectKeepsAccumulator(ds: seq<Option<(int, map<int, real>)>>, acc: map<int, map<int, real>>)
    ensures forall p :: p in acc ==> p in Collect(ds, acc) && Collect(ds, acc)[p] == acc[p]
    decreases |ds|
  {
    if |ds| > 0 {
      if ds[0].None? {
        CollectKeepsAccumulator(ds[1..], acc);
      } else if ds[0].value.0 !in acc {
        CollectKeepsAccumulator(ds[1..], acc[ds[0].value.0 := ds[0].value.1]);
      }
    }
  }

  /** The loop stops at a repeated parent: nothing after it contributes. */
  lemma {:induction false} CollectStopsAtRepeat(ds: seq<Option<(int, map<int, real>)>>, acc: map<int, map<int, real>>, j: nat)
    requires j < |ds| && ds[j].Some? && ds[j].value.0 in Collect(ds[..j], acc)
    ensures Collect(ds, acc) == Collect(ds[..j], acc)
    decreases j
  {
    if j == 0 {
      assert ds[..0] == [];
    } else {
      assert ds[..j][1..] == ds[1..][..j - 1];
      if ds[0].None? {
        CollectStopsAtRepeat(ds[1..], acc, j - 1);
      } else if ds[0].value.0 !in acc {
        CollectStopsAtRepeat(ds[1..], acc[ds[0].value.0 := ds[0].value.1], j - 1);
      }
    }
  }

  /** The TIC chromatograms finaliseFile has built after visiting the first n constants of MSN.values(). */
  function PutTics(tics: seq<(MSN, Option<seq<XYPoint>>)>, ticData: seq<(MSN, seq<XYPoint>)>, n: nat): seq<(MSN, Option<seq<XYPoint>>)>
    requires n <= |AllLevels|
  {
    if n == 0 then tics else Put(PutTics(tics, ticData, n - 1), AllLevels[n - 1], LinkedMaps.Get(ticData, AllLevels[n - 1]))
  }

  /** The TIC loop of finaliseFile: level by level, while a layer of that level exists, the buffered
      chromatogram of the level is put into the map. `completed` is false when a layer exists but the
      buffers are null. */
  method BuildTics(tics: seq<(MSN, Option<seq<XYPoint>>)>, ticData: Option<seq<(MSN, seq<XYPoint>)>>, layers: nat)
    returns (r: seq<(MSN, Option<seq<XYPoint>>)>, completed: bool)
    requires DistinctKeys(tics)
    ensures completed <==> ticData.Some? || layers == 0
    ensures completed ==> r == PutTics(tics, if ticData.Some? then ticData.value else [],
                                       if layers < |AllLevels| then layers else |AllLevels|)
    ensures DistinctKeys(r)
  {
    ghost var data := if ticData.Some? then ticData.value else [];
    r := tics;
    var k := 0;
    while k < |AllLevels|
      invariant 0 <= k <= |AllLevels| && k <= layers
      invariant k > 0 ==> ticData.Some?
      invariant r == PutTics(tics, data, k)
    {
      var msn := AllLevels[k];
      LvlOfLevel(k);
      if Lvl(msn) > layers { break; }
      if ticData.None? {
        PutTicsAt(tics, data, k, MS1);
        return r, false;
      }
      r := Put(r, msn, LinkedMaps.Get(ticData.value, msn));
      k := k + 1;
    }
    assert k == if layers < |AllLevels| then layers else |AllLevels|;
    PutTicsAt(tics, data, k, MS1);
    completed := true;
  }

  /** One key after the first n levels are put: a level up to n has the chromatogram of its buffer,
      any other key keeps its entry. */
  lemma {:induction false} PutTicsAt(tics: seq<(MSN, Option<seq<XYPoint>>)>, ticData: seq<(MSN, seq<XYPoint>)>, n: nat, m: MSN)
    requires n <= |AllLevels| && DistinctKeys(tics)
    ensures DistinctKeys(PutTics(tics, ticData, n))
    ensures LinkedMaps.Get(PutTics(tics, ticData, n), m) ==
            if Lvl(m) <= n then Some(LinkedMaps.Get(ticData, m)) else LinkedMaps.Get(tics, m)
  {
    if n > 0 {
      PutTicsAt(tics, ticData, n - 1, m);
      var k := AllLevels[n - 1];
      var before := PutTics(tics, ticData, n - 1);
      assert PutTics(tics, ticData, n) == Put(before, k, LinkedMaps.Get(ticData, k));
      LvlOfLevel(n - 1);
      PutGet(before, k, LinkedMaps.Get(ticData, k), m);
      if Lvl(m) == n {
        AllLevelsByLvl(m);
        assert m == k;
      } else {
        assert m != k;
      }
    }
  }

  /** After finaliseFile each level up to n has the chromatogram of its buffer, and no other key changes. */
  lemma PutTicsCovers(tics: seq<(MSN, Option<seq<XYPoint>>)>, ticData: seq<(MSN, seq<XYPoint>)>, n: nat)
    requires n <= |AllLevels| && DistinctKeys(tics)
    ensures DistinctKeys(PutTics(tics, ticData, n))
    ensures forall m :: Lvl(m) <= n ==> LinkedMaps.Get(PutTics(tics, ticData, n), m) == Some(LinkedMaps.Get(ticData, m))
    ensures forall m :: Lvl(m) > n ==> LinkedMaps.Get(PutTics(tics, ticData, n), m) == LinkedMaps.Get(tics, m)
  {
    forall m {
      PutTicsAt(tics, ticData, n, m);
    }
    PutTicsAt(tics, ticData, n, MS1);
  }

  class MemoryRawContainer {
    const id: string
    /** The creation date of the raw file info; None stands for Java null. */
    var date: Option<string>
    var rawLevels: seq<RawLevel>
    var scans: seq<seq<(int, Scan)>>
    var tics: seq<(MSN, Option<seq<XYPoint>>)>
    /** The data of the base peak chromatogram (None before finaliseFile). */
    var basePeakChromatogram: Option<seq<XYPoint>>
    /** The buffers that finaliseFile consumes and sets to null. */
    var ticData: Option<seq<(MSN, seq<XYPoint>)>>
    var basePeakData: Option<seq<XYPoint>>

    /** Every layer map has one RawLevel, and every map has distinct keys. */
    predicate Valid()
      reads this
    {
      |scans| <= |rawLevels| &&
      DistinctKeys(tics) &&
      (forall l :: 0 <= l < |scans| ==> DistinctKeys(scans[l])) &&
      (ticData.Some? ==> DistinctKeys(ticData.value))
    }

    constructor (id: string)
      ensures Valid()
      ensures this.id == id && date == None
      ensures scans == [] && rawLevels == [] && tics == [] && basePeakChromatogram == None
      ensures ticData == Some([]) && basePeakData == Some([])
    {
      this.id := id;
      date := None;
      rawLevels := [];
      scans := [];
      tics := [];
      basePeakChromatogram := None;
      ticData := Some([]);
      basePeakData := Some([]);
    }

    /** addScan. A scan of a level that has a layer goes into that layer, replacing a scan of the same
        index, and extends the layer's ranges; any other scan opens a new layer. `completed` is false
        where the source dereferences a null buffer or a missing TIC buffer (NullPointerException);
        the state is then the one reached up to that point. */
    method AddScan(scan: Scan) returns (completed: bool)
      requires Valid()
      modifies this
      ensures Valid()
      ensures scans == StoredScans(old(scans), scan)
      ensures var l := Lvl(scan.msn) - 1;
        if l < |old(scans)| then
          rawLevels == old(rawLevels)[l := old(rawLevels)[l].(
            mzRange := Hull(old(rawLevels)[l].mzRange, scan.mzRange),
            scanRange := ExtendWith(old(rawLevels)[l].scanRange, scan.retentionTime))]
        else
          rawLevels == old(rawLevels) + [RawLevel(Interval(scan.retentionTime, scan.retentionTime),
                                                  scan.mzRange, scan.ionMode, scan.msn)]
      ensures basePeakData ==
        if HasBasePoint(scan) && old(basePeakData).Some?
        then Some(old(basePeakData).value + [XYPoint(scan.retentionTime, scan.basePeak[0].y)])
        else old(basePeakData)
      ensures completed <==>
        (!HasBasePoint(scan) || old(basePeakData).Some?) && old(ticData).Some? &&
        (Lvl(scan.msn) - 1 < |old(scans)| ==> scan.msn in Keys(old(ticData).value))
      ensures ticData ==
        if !completed then old(ticData)
        else if Lvl(scan.msn) - 1 < |old(scans)| then Some(Appended(old(ticData).value, scan.msn, TicPoint(scan)))
        else Some(Put(old(ticData).value, scan.msn, [TicPoint(scan)]))
      ensures date == old(date) && tics == old(tics) && basePeakChromatogram == old(basePeakChromatogram)
    {
      var existing := Lvl(scan.msn) - 1 < |scans|;
      FileScan(scan);
      completed := AddBasePoint(scan);
      if !completed { return; }
      completed := AddTicPoint(scan, existing);
    }

    /** The first step of addScan: the scan is filed into its layer, or opens a new one, and the
        layer's ranges are extended. */
    method FileScan(scan: Scan)
      requires Valid()
      modifies this
      ensures Valid()
      ensures scans == StoredScans(old(scans), scan)
      ensures var l := Lvl(scan.msn) - 1;
        if l < |old(scans)| then
          rawLevels == old(rawLevels)[l := old(rawLevels)[l].(
            mzRange := Hull(old(rawLevels)[l].mzRange, scan.mzRange),
            scanRange := ExtendWith(old(rawLevels)[l].scanRange, scan.retentionTime))]
        else
          rawLevels == old(rawLevels) + [RawLevel(Interval(scan.retentionTime, scan.retentionTime),
                                                  scan.mzRange, scan.ionMode, scan.msn)]
      ensures date == old(date) && tics == old(tics) && basePeakChromatogram == old(basePeakChromatogram)
      ensures ticData == old(ticData) && basePeakData == old(basePeakData)
    {
      var l := Lvl(scan.msn) - 1;
      if l < |scans| {
        PutGet(scans[l], scan.index, scan, scan.index);
        scans := scans[l := Put(scans[l], scan.index, scan)];
        var level := rawLevels[l];
        rawLevels := rawLevels[l := level.(mzRange := Hull(level.mzRange, scan.mzRange),
                                           scanRange := ExtendWith(level.scanRange, scan.retentionTime))];
      } else {
        scans := scans + [[(scan.index, scan)]];
        rawLevels := rawLevels + [RawLevel(Interval(scan.retentionTime, scan.retentionTime),
                                           scan.mzRange, scan.ionMode, scan.msn)];
      }
    }

    /** The base-peak step of addScan: an MS1 scan with a base peak appends its point to the buffer,
        which fails on a null buffer. */
    method AddBasePoint(scan: Scan) returns (completed: bool)
      modifies this
      ensures completed <==> !HasBasePoint(scan) || old(basePeakData).Some?
      ensures basePeakData ==
        if HasBasePoint(scan) && old(basePeakData).Some?
        then Some(old(basePeakData).value + [XYPoint(scan.retentionTime, scan.basePeak[0].y)])
        else old(basePeakData)
      ensures date == old(date) && tics == old(tics) && basePeakChromatogram == old(basePeakChromatogram)
      ensures scans == old(scans) && rawLevels == old(rawLevels) && ticData == old(ticData)
    {
      if HasBasePoint(scan) {
        if basePeakData.None? { return false; }
        basePeakData := Some(basePeakData.value + [XYPoint(scan.retentionTime, scan.basePeak[0].y)]);
      }
      return true;
    }

    /** The TIC step of addScan: the scan's point is appended to its level's buffer when the layer
        existed, and starts a new buffer otherwise; a null buffer map, or a missing buffer of an
        existing layer, fails. */
    method AddTicPoint(scan: Scan, existing: bool) returns (completed: bool)
      requires Valid()
      modifies this
      ensures Valid()
      ensures completed <==> old(ticData).Some? && (existing ==> scan.msn in Keys(old(ticData).value))
      ensures ticData ==
        if !completed then old(ticData)
        else if existing then Some(Appended(old(ticData).value, scan.msn, TicPoint(scan)))
        else Some(Put(old(ticData).value, scan.msn, [TicPoint(scan)]))
      ensures date == old(date) && tics == old(tics) && basePeakChromatogram == old(basePeakChromatogram)
      ensures scans == old(scans) && rawLevels == old(rawLevels) && basePeakData == old(basePeakData)
    {
      if ticData.None? { return false; }
      var buffers := ticData.value;
      var next;
      if existing {
        var current := LinkedMaps.Get(buffers, scan.msn);
        if current.None? { return false; }
        next := Appended(buffers, scan.msn, TicPoint(scan));
        PutGet(buffers, scan.msn, current.value + [TicPoint(scan)], scan.msn);
      } else {
        next := Put(buffers, scan.msn, [TicPoint(scan)]);
        PutGet(buffers, scan.msn, [TicPoint(scan)], scan.msn);
      }
      assert DistinctKeys(next);
      ticData := Some(next);
      return true;
    }

    /** finaliseFile: set a non-null date, wrap the base-peak buffer, build one TIC per existing layer
        from its buffer, and drop both buffers. `completed` is false where the TIC buffers are already
        null and a layer exists (NullPointerException). */
    method FinaliseFile(newDate: Option<string>) returns (completed: bool)
      requires Valid()
      modifies this
      ensures Valid()
      ensures date == if newDate.Some? then newDate else old(date)
      ensures basePeakChromatogram == old(basePeakData)
      ensures completed <==> old(ticData).Some? || |rawLevels| == 0
      ensures completed ==> ticData == None && basePeakData == None
      ensures completed ==> tics == PutTics(old(tics), if old(ticData).Some? then old(ticData).value else [],
                                            if |rawLevels| < |AllLevels| then |rawLevels| else |AllLevels|)
      ensures !completed ==> tics == old(tics) && ticData == old(ticData) && basePeakData == old(basePeakData)
      ensures scans == old(scans) && rawLevels == old(rawLevels)
    {
      if newDate.Some? { date := newDate; }
      basePeakChromatogram := basePeakData;
      var built;
      built, completed := BuildTics(tics, ticData, |rawLevels|);
      if completed {
        tics := built;
        ticData := None;
        basePeakData := None;
      }
    }

    /** getScan: the scan of the first layer that holds index i, or null. */
    method GetScan(i: int) returns (r: Option<Scan>)
      ensures r == FindScan(scans, i)
    {
      var l := 0;
      while l < |scans|
        invariant 0 <= l <= |scans|
        invariant FindScan(scans[l..], i) == FindScan(scans, i)
      {
        assert scans[l..][1..] == scans[l + 1..];
        var found := LinkedMaps.Get(scans[l], i);
        if found.Some? { return found; }
        l := l + 1;
      }
      return None;
    }

    /** getScanByIndex: the i-th scan of the first layer, or null past its end. The first layer of an
        empty container does not exist (IndexOutOfBoundsException). */
    method GetScanByIndex(i: int) returns (r: Result<Option<Scan>>)
      ensures |scans| == 0 ==> r.Failure?
      ensures |scans| > 0 ==> r == Success(if 0 <= i < |scans[0]| then Some(scans[0][i].1) else None)
    {
      if |scans| == 0 { return Failure("IndexOutOfBoundsException"); }
      var level := scans[0];
      var j := 0;
      while j < |level|
        invariant 0 <= j <= |level|
        invariant !(0 <= i < j)
      {
        if i == j { return Success(Some(level[j].1)); }
        j := j + 1;
      }
      return Success(None);
    }

    /** removeAll: only the layer maps are cleared; the levels and chromatograms stay. */
    method RemoveAll() returns (removed: bool)
      requires Valid()
      modifies this
      ensures Valid()
      ensures removed && scans == []
      ensures rawLevels == old(rawLevels) && tics == old(tics) && ticData == old(ticData)
      ensures basePeakData == old(basePeakData) && basePeakChromatogram == old(basePeakChromatogram)
      ensures date == old(date)
    {
      scans := [];
      removed := |scans| == 0;
    }

    /** getMSnParentDaughterMap: each parent scan of the second layer's scans mapped to its first
        daughter's index and parent m/z, scans with a zero parent m/z skipped, stopping at the first
        repeated parent. */
    method GetMSnParentDaughterMap() returns (r: map<int, map<int, real>>)
      ensures r == DaughterMap(scans)
    {
      if |scans| < 2 { return map[]; }
      ghost var ds := Daughters(scans);
      r := map[];
      var entries := scans[1];
      var j := 0;
      while j < |entries|
        invariant 0 <= j <= |entries|
        invariant Collect(ds[j..], r) == DaughterMap(scans)
      {
        assert ds[j..][1..] == ds[j + 1..];
        var scanNo := entries[j].0;
        var found := GetScan(scanNo);
        FindScanIsFirstHolder(scans, scanNo);
        assert scanNo in Keys(scans[1]);
        var scan := found.value;
        assert ds[j] == DaughterEntry(found);
        if scan.parentMz == 0.0 {
          j := j + 1;
          continue;
        }
        if scan.parentScan in r { break; }
        r := r[scan.parentScan := map[scan.index := scan.parentMz]];
        j := j + 1;
      }
    }
  }
}
