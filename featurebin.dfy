/** FeatureBin: one aligned feature row across the samples, keeping the running means of the features
    added to it, the intensity per sample column, and which container and group each feature came from. */
module FeatureBins {
  import opened Wrappers
  import opened Numerics
  import opened Points

  /** The values of a feature that a bin reads. */
  datatype Feature = Feature(id: int, mz: real, retentionTime: real, area: real, deviation: real,
                             intensity: real, trace: seq<XYPoint>)

  /** One call of add: the container index, the container's group and the feature. */
  datatype Entry = Entry(index: int, groupId: int, feature: Feature)

  /** The four averaged values of a bin. */
  datatype Field = Mz | Rt | Area | MzDev

  function FieldOf(f: Feature, field: Field): real
  {
    match field
      case Mz => f.mz
      case Rt => f.retentionTime
      case Area => f.area
      case MzDev => f.deviation
  }

  /** The values of one field over the added features, in order. */
  function Values(h: seq<Entry>, field: Field): (r: seq<real>)
    ensures |r| == |h|
  {
    if |h| == 0 then [] else Values(h[..|h| - 1], field) + [FieldOf(h[|h| - 1].feature, field)]
  }

  lemma ValuesSnoc(h: seq<Entry>, e: Entry, field: Field)
    ensures Values(h + [e], field) == Values(h, field) + [FieldOf(e.feature, field)]
  {
    assert (h + [e])[..|h|] == h;
  }

  /** The running-mean update `x + (v - x) / (n + 1)` of add turns the mean of n values into the mean of
      the n + 1 values. */
  lemma MeanStep(s: seq<real>, v: real)
    ensures Average(s + [v]) == Average(s) + (v - Average(s)) / ((|s| + 1) as real)
  {
    AverageAppend(s, v);
    var a := Average(s);
    var n := |s| as real;
    var n1 := (|s| + 1) as real;
    calc {
      (a * n + v) / n1;
      (a * n1 + (v - a)) / n1;
      a * n1 / n1 + (v - a) / n1;
      a + (v - a) / n1;
    }
  }

  /** The container indices seen so far. */
  function Seen(h: seq<Entry>): set<int>
  {
    set k | 0 <= k < |h| :: h[k].index
  }

  lemma SeenSnoc(h: seq<Entry>, e: Entry)
    ensures Seen(h + [e]) == Seen(h) + {e.index}
  {
    var h' := h + [e];
    assert h'[|h|] == e;
    forall i | i in Seen(h)
      ensures i in Seen(h')
    {
      var k :| 0 <= k < |h| && h[k].index == i;
      assert h'[k] == h[k];
    }
  }

  /** The container index to feature id map after the adds: each put overwrites the previous one. */
  function IdMap(h: seq<Entry>): map<int, int>
  {
    if |h| == 0 then map[] else IdMap(h[..|h| - 1])[h[|h| - 1].index := h[|h| - 1].feature.id]
  }

  /** Add k is the last one under container index i. */
  predicate LastAdd(h: seq<Entry>, k: int, i: int)
  {
    0 <= k < |h| && h[k].index == i && forall j :: k < j < |h| ==> h[j].index != i
  }

  /** The map holds exactly the indices seen, each with the id of the last feature added under it. */
  lemma {:induction false} IdMapLatest(h: seq<Entry>, i: int)
    ensures IdMap(h).Keys == Seen(h)
    ensures i in IdMap(h) ==> exists k :: LastAdd(h, k, i) && IdMap(h)[i] == h[k].feature.id
    decreases |h|
  {
    if |h| > 0 {
      var init, e := h[..|h| - 1], h[|h| - 1];
      assert h == init + [e];
      IdMapLatest(init, i);
      SeenSnoc(init, e);
      if i in IdMap(h) && e.index != i {
        var k :| LastAdd(init, k, i) && IdMap(init)[i] == init[k].feature.id;
        assert h[k] == init[k];
        assert forall j :: k < j < |h| ==> h[j].index != i by {
          forall j | k < j < |h|
            ensures h[j].index != i
          {
            if j < |init| {
              assert h[j] == init[j];
            }
          }
        }
      }
    }
  }

  /** The group to count map after the adds: a group's count rises only for a container index seen for
      the first time. */
  function GroupCounts(h: seq<Entry>): map<int, int>
  {
    if |h| == 0 then map[]
    else
      var prev := GroupCounts(h[..|h| - 1]);
      var e := h[|h| - 1];
      if e.index in Seen(h[..|h| - 1]) then prev
      else prev[e.groupId := (if e.groupId in prev then prev[e.groupId] else 0) + 1]
  }

  /** The adds that brought a container index for the first time, for a group. */
  function FirstPositions(h: seq<Entry>, g: int): set<int>
  {
    set k | 0 <= k < |h| && h[k].groupId == g && h[k].index !in Seen(h[..k])
  }

  function GroupCount(counts: map<int, int>, g: int): int
  {
    if g in counts then counts[g] else 0
  }

  /** One more add extends the first-seen positions of its group when its index is new. */
  lemma FirstPositionsSnoc(h: seq<Entry>, e: Entry, g: int)
    ensures FirstPositions(h + [e], g) ==
      FirstPositions(h, g) + (if e.index !in Seen(h) && e.groupId == g then {|h|} else {})
  {
    var h' := h + [e];
    assert h'[..|h|] == h;
    forall k | 0 <= k < |h|
      ensures h'[..k] == h[..k] && h'[k] == h[k]
    {
    }
  }

  /** A group's count is the number of container indices first seen with that group, and 0 for a group
      never seen. */
  lemma {:induction false} GroupCountsAreFirstSeen(h: seq<Entry>, g: int)
    ensures GroupCount(GroupCounts(h), g) == |FirstPositions(h, g)|
    decreases |h|
  {
    if |h| > 0 {
      var init, e := h[..|h| - 1], h[|h| - 1];
      assert h == init + [e];
      GroupCountsAreFirstSeen(init, g);
      FirstPositionsSnoc(init, e, g);
      assert |init| !in FirstPositions(init, g);
    }
  }

  /** The trace of the first feature added, or the empty chromatogram. */
  function FirstTrace(h: seq<Entry>): seq<XYPoint>
  {
    if |h| == 0 then [] else h[0].feature.trace
  }

  /** The fields of a bin that add updates. */
  datatype BinFields = BinFields(mz: real, rt: real, area: real, mzDev: real, ids: map<int, int>,
                                 counts: map<int, int>, chromatogram: seq<XYPoint>, nFeatures: int)

  /** The fields a bin should hold after the adds h: the four means of the added features, the maps of
      the adds, the trace of the first feature, and one more than the number of adds. */
  ghost function Expected(h: seq<Entry>): BinFields
  {
    BinFields(Average(Values(h, Mz)), Average(Values(h, Rt)), Average(Values(h, Area)), Average(Values(h, MzDev)),
              IdMap(h), GroupCounts(h), FirstTrace(h), |h| + 1)
  }

  /** The running-mean update of add: x moves by (v - x) / n. */
  function Moved(x: real, v: real, n: int): real
    requires n > 0
  {
    x + ((v - x) / (n as real))
  }

  /** The update of add: each mean moves by (v - mean) / nFeatures, the first feature's trace is kept,
      the index is mapped to the feature id, and the group is counted for an index new to the bin. */
  function Step(f: BinFields, e: Entry): BinFields
    requires f.nFeatures > 0
  {
    var n := f.nFeatures;
    BinFields(Moved(f.mz, e.feature.mz, n), Moved(f.rt, e.feature.retentionTime, n),
              Moved(f.area, e.feature.area, n), Moved(f.mzDev, e.feature.deviation, n),
              f.ids[e.index := e.feature.id],
              if e.index in f.ids then f.counts else f.counts[e.groupId := GroupCount(f.counts, e.groupId) + 1],
              if f.nFeatures == 1 then e.feature.trace else f.chromatogram, f.nFeatures + 1)
  }

  /** The update of add keeps the fields those of the adds made: means stay means, and so on. */
  lemma AddStep(h: seq<Entry>, e: Entry)
    ensures Expected(h + [e]) == Step(Expected(h), e)
  {
    var h' := h + [e];
    assert h'[..|h'| - 1] == h;
    IdMapLatest(h, e.index);
    MeanStep(Values(h, Mz), e.feature.mz);
    MeanStep(Values(h, Rt), e.feature.retentionTime);
    MeanStep(Values(h, Area), e.feature.area);
    MeanStep(Values(h, MzDev), e.feature.deviation);
    ValuesSnoc(h, e, Mz);
    ValuesSnoc(h, e, Rt);
    ValuesSnoc(h, e, Area);
    ValuesSnoc(h, e, MzDev);
    assert (e.index in IdMap(h)) == (e.index in Seen(h));
    assert Expected(h').counts == Step(Expected(h), e).counts;
    assert Expected(h').mz == Step(Expected(h), e).mz;
    assert Expected(h').ids == Step(Expected(h), e).ids;
    assert Expected(h').chromatogram == Step(Expected(h), e).chromatogram;
  }

  class FeatureBin {
    var mz: real
    var rt: real
    var labelText: string
    var area: real
    var mzDev: real
    var chromatogram: seq<XYPoint>
    const present: array<real>
    var containerIndexToFeatureId: map<int, int>
    var groupToCount: map<int, int>
    var nFeatures: int
    /** The adds so far. */
    ghost var added: seq<Entry>

    /** The averaged values are the means of the added features, nFeatures is one more than their
        number, and the maps and the chromatogram are those of the adds. */
    ghost predicate Valid()
      reads this
    {
      Fields() == Expected(added)
    }

    function Fields(): BinFields
      reads this
    {
      BinFields(mz, rt, area, mzDev, containerIndexToFeatureId, groupToCount, chromatogram, nFeatures)
    }

    /** A bin with every value zero and fileColumns sample columns. */
    constructor (fileColumns: nat)
      ensures Valid() && added == [] && labelText == ""
      ensures fresh(present) && present.Length == fileColumns && forall c :: 0 <= c < fileColumns ==> present[c] == 0.0
    {
      mz, rt, area, mzDev := 0.0, 0.0, 0.0, 0.0;
      labelText := "";
      chromatogram := [];
      present := new real[fileColumns](_ => 0.0);
      containerIndexToFeatureId := map[];
      groupToCount := map[];
      nFeatures := 1;
      added := [];
    }

    /** A bin holding its first feature. */
    constructor WithFeature(index: int, groupId: int, feature: Feature, fileColumns: nat)
      requires 0 <= index < fileColumns
      ensures Valid() && added == [Entry(index, groupId, feature)] && labelText == ""
      ensures fresh(present) && present.Length == fileColumns
      ensures forall c :: 0 <= c < fileColumns ==> present[c] == if c == index then feature.intensity else 0.0
    {
      mz, rt, area, mzDev := 0.0, 0.0, 0.0, 0.0;
      labelText := "";
      chromatogram := [];
      present := new real[fileColumns](_ => 0.0);
      containerIndexToFeatureId := map[];
      groupToCount := map[];
      nFeatures := 1;
      added := [];
      new;
      assert Fields() == Expected([]);
      ghost var columns := present[..];
      assert forall c :: 0 <= c < fileColumns ==> columns[c] == 0.0;
      var ok := Add(index, groupId, feature);
      assert ok;
      assert added == [Entry(index, groupId, feature)];
      assert present[..] == columns[index := feature.intensity];
      forall c | 0 <= c < fileColumns
        ensures present[c] == if c == index then feature.intensity else 0.0
      {
        assert present[c] == present[..][c];
      }
    }

    /** add: moves the four means towards the feature, keeps the trace of the first feature, records
        the intensity in the container's column, counts a container index new to the bin for its
        group, and maps the index to the feature id. An index outside the columns fails on the
        intensity, after the means and the chromatogram were updated. */
    method Add(index: int, groupId: int, feature: Feature) returns (ok: bool)
      requires Valid()
      modifies this, present
      ensures ok <==> 0 <= index < present.Length
      ensures labelText == old(labelText)
      ensures ok ==> Valid() && added == old(added) + [Entry(index, groupId, feature)]
      ensures ok ==> present[..] == old(present[..])[index := feature.intensity]
      ensures ok ==> groupToCount == if index in old(containerIndexToFeatureId) then old(groupToCount)
        else old(groupToCount)[groupId := GroupCount(old(groupToCount), groupId) + 1]
      ensures !ok ==> present[..] == old(present[..]) && added == old(added) && nFeatures == old(nFeatures)
      ensures !ok ==> containerIndexToFeatureId == old(containerIndexToFeatureId) && groupToCount == old(groupToCount)
      ensures !ok ==> var next := Expected(old(added) + [Entry(index, groupId, feature)]);
        mz == next.mz && rt == next.rt && area == next.area && mzDev == next.mzDev && chromatogram == next.chromatogram
    {
      var entry := Entry(index, groupId, feature);
      AddStep(added, entry);
      ok := Update(entry);
      if ok {
        added := added + [entry];
      }
    }

    /** The body of add, on the fields. */
    method Update(entry: Entry) returns (ok: bool)
      requires nFeatures > 0
      modifies this, present
      ensures ok <==> 0 <= entry.index < present.Length
      ensures labelText == old(labelText) && added == old(added)
      ensures ok ==> Fields() == Step(old(Fields()), entry)
      ensures ok ==> present[..] == old(present[..])[entry.index := entry.feature.intensity]
      ensures !ok ==> present[..] == old(present[..]) && nFeatures == old(nFeatures)
      ensures !ok ==> containerIndexToFeatureId == old(containerIndexToFeatureId) && groupToCount == old(groupToCount)
      ensures !ok ==> var next := Step(old(Fields()), entry);
        mz == next.mz && rt == next.rt && area == next.area && mzDev == next.mzDev && chromatogram == next.chromatogram
    {
      var index, groupId, feature := entry.index, entry.groupId, entry.feature;
      MoveMeans(feature);
      if !(0 <= index < present.Length) {
        return false;
      }
      present[index] := feature.intensity;
      if index !in containerIndexToFeatureId {
        if groupId in groupToCount {
          groupToCount := groupToCount[groupId := groupToCount[groupId] + 1];
        } else {
          groupToCount := groupToCount[groupId := 1];
        }
      }
      containerIndexToFeatureId := containerIndexToFeatureId[index := feature.id];
      nFeatures := nFeatures + 1;
      return true;
    }

    /** The first part of add: the four means move towards the feature, and the first feature's trace
        becomes the chromatogram. */
    method MoveMeans(feature: Feature)
      requires nFeatures > 0
      modifies this
      ensures labelText == old(labelText) && added == old(added)
      ensures Fields() == old(Fields()).(mz := Moved(old(mz), feature.mz, old(nFeatures)),
                                         rt := Moved(old(rt), feature.retentionTime, old(nFeatures)),
                                         area := Moved(old(area), feature.area, old(nFeatures)),
                                         mzDev := Moved(old(mzDev), feature.deviation, old(nFeatures)),
                                         chromatogram := if old(nFeatures) == 1 then feature.trace else old(chromatogram))
    {
      mz := Moved(mz, feature.mz, nFeatures);
      rt := Moved(rt, feature.retentionTime, nFeatures);
      area := Moved(area, feature.area, nFeatures);
      mzDev := Moved(mzDev, feature.deviation, nFeatures);
      if nFeatures == 1 {
        chromatogram := feature.trace;
      }
    }

    /** setPresent: sets the intensity of one sample column. */
    method SetPresent(i: int, intensity: real) returns (ok: bool)
      modifies present
      ensures ok <==> 0 <= i < present.Length
      ensures ok ==> present[..] == old(present[..])[i := intensity]
      ensures !ok ==> present[..] == old(present[..])
    {
      if !(0 <= i < present.Length) {
        return false;
      }
      present[i] := intensity;
      return true;
    }

    /** getFeatureId: the id of the feature of a container, None when the container has none. */
    function FeatureId(containerIndex: int): (r: Option<int>)
      reads this
      ensures Valid() ==> (r.Some? <==> containerIndex in Seen(added))
    {
      IdMapLatest(added, containerIndex);
      if containerIndex in containerIndexToFeatureId then Some(containerIndexToFeatureId[containerIndex]) else None
    }

    /** getnFeatures: the number of distinct containers with a feature in the bin. */
    function NFeatures(): (r: int)
      reads this
      ensures Valid() ==> r == |Seen(added)|
    {
      IdMapLatest(added, 0);
      |containerIndexToFeatureId|
    }

    /** getnFeatures(group): the number of containers of a group with a feature in the bin, 0 for a
        group never seen. */
    function NFeaturesOfGroup(group: int): (r: int)
      reads this
      ensures Valid() ==> r == |FirstPositions(added, group)|
    {
      GroupCountsAreFirstSeen(added, group);
      if group in groupToCount then groupToCount[group] else 0
    }
  }
}
