/** ProfileMsnHelper: the MSn scans of a raw container sorted by precursor, one map per MSn level
    (level 0 is MS2) from the parent scan id to the child scan ids and their precursor m/z, and the
    recursive search for all descendants of a precursor. */
module MsnHelpers {
  import opened Wrappers
  import opened Numerics
  import opened Constants
  import opened Scans

  /** One MSn level: parent scan id to child scan id to precursor ion m/z. */
  type LevelMap = map<int, map<int, real>>

  /** The tolerance between the precursor m/z and the query m/z. */
  const EPSILON: real := 0.001

  /** Files one scan under its parent; a scan without parent (-1) is skipped. */
  function AddScan(m: LevelMap, s: Scan): LevelMap
  {
    if s.parentScan == -1 then m
    else if s.parentScan in m then m[s.parentScan := m[s.parentScan][s.index := s.parentMz]]
    else m[s.parentScan := map[s.index := s.parentMz]]
  }

  /** The scans of one level filed in iteration order. */
  function AddScans(m: LevelMap, scans: seq<Scan>): LevelMap
  {
    if |scans| == 0 then m else AddScan(AddScans(m, scans[..|scans| - 1]), scans[|scans| - 1])
  }

  /** After filing, a parent holds a child exactly when it did before or some scan with that index
      names that parent; no parent -1 is ever added. */
  lemma {:induction false} AddScansContents(m: LevelMap, scans: seq<Scan>, parent: int, child: int)
    ensures (parent in AddScans(m, scans) && child in AddScans(m, scans)[parent]) <==>
      (parent in m && child in m[parent]) ||
      (parent != -1 && exists k :: 0 <= k < |scans| && scans[k].parentScan == parent && scans[k].index == child)
    ensures parent in AddScans(m, scans) ==> parent in m || parent != -1
    decreases |scans|
  {
    if |scans| > 0 {
      var init := scans[..|scans| - 1];
      var s := scans[|scans| - 1];
      AddScansContents(m, init, parent, child);
      if parent != -1 && (exists k :: 0 <= k < |init| && init[k].parentScan == parent && init[k].index == child) {
        var k :| 0 <= k < |init| && init[k].parentScan == parent && init[k].index == child;
        assert scans[k] == init[k];
      }
      if parent != -1 && (exists k :: 0 <= k < |scans| && scans[k].parentScan == parent && scans[k].index == child) {
        var k :| 0 <= k < |scans| && scans[k].parentScan == parent && scans[k].index == child;
        if k < |init| {
          assert init[k] == scans[k];
        }
      }
    }
  }

  /** The precursor m/z recorded for a child is that of the last scan with that index under that parent. */
  lemma AddScanLast(m: LevelMap, s: Scan)
    requires s.parentScan != -1
    ensures s.parentScan in AddScan(m, s) && AddScan(m, s)[s.parentScan][s.index] == s.parentMz
    ensures forall p :: p in m && p != s.parentScan ==> p in AddScan(m, s) && AddScan(m, s)[p] == m[p]
  {
  }

  /** The maps of the levels, one per level other than MS1, in level order, as intended. */
  function LevelMaps(levels: seq<(MSN, seq<Scan>)>): seq<LevelMap>
  {
    if |levels| == 0 then []
    else
      var prev := LevelMaps(levels[..|levels| - 1]);
      var last := levels[|levels| - 1];
      if last.0 == MS1 then prev else prev + [AddScans(map[], last.1)]
  }

  /** The number of levels other than MS1. */
  function MsnCount(levels: seq<(MSN, seq<Scan>)>): nat
  {
    if |levels| == 0 then 0
    else MsnCount(levels[..|levels| - 1]) + (if levels[|levels| - 1].0 == MS1 then 0 else 1)
  }

  /** There is one map per MSn level. */
  lemma {:induction false} LevelMapsCount(levels: seq<(MSN, seq<Scan>)>)
    ensures |LevelMaps(levels)| == MsnCount(levels)
    decreases |levels|
  {
    if |levels| > 0 {
      LevelMapsCount(levels[..|levels| - 1]);
    }
  }

  /** The first map is created before the levels are read, even when none of them is an MSn level. */
  function Started(maps: seq<LevelMap>): seq<LevelMap>
  {
    if maps == [] then [map[]] else maps
  }

  /** init as intended: nothing for fewer than two levels, otherwise one map per MSn level (and the
      first one always). */
  function InitMaps(levels: seq<(MSN, seq<Scan>)>): seq<LevelMap>
  {
    if |levels| < 2 then [] else Started(LevelMaps(levels))
  }

  /** The state of the level loop of init as written: the maps and the current level, or None once
      a level past the maps was read. */
  function InitLoopAsWritten(levels: seq<(MSN, seq<Scan>)>): Option<(seq<LevelMap>, int)>
  {
    if |levels| == 0 then Some(([map[]], 0))
    else
      var prev := InitLoopAsWritten(levels[..|levels| - 1]);
      var last := levels[|levels| - 1];
      if prev.None? || last.0 == MS1 then prev
      else
        var maps := prev.value.0;
        var msn := prev.value.1;
        if !(0 <= msn < |maps|) then None
        else Some((maps[msn := AddScans(maps[msn], last.1)], msn + 1))
  }

  /** init as written: a single map is created, and every MSn level reads the map of its own offset,
      so the second MSn level fails with an index out of bounds. */
  function InitAsWritten(levels: seq<(MSN, seq<Scan>)>): Option<seq<LevelMap>>
  {
    if |levels| < 2 then Some([])
    else
      var r := InitLoopAsWritten(levels);
      if r.None? then None else Some(r.value.0)
  }

  /** The loop as written reads the maps correctly while at most one MSn level has been seen, and
      fails from the second one on. */
  lemma {:induction false} InitLoopAsWrittenState(levels: seq<(MSN, seq<Scan>)>)
    ensures InitLoopAsWritten(levels).Some? <==> MsnCount(levels) <= 1
    ensures InitLoopAsWritten(levels).Some? ==>
      InitLoopAsWritten(levels).value == (Started(LevelMaps(levels)), MsnCount(levels))
    decreases |levels|
  {
    if |levels| > 0 {
      var prefix := levels[..|levels| - 1];
      var last := levels[|levels| - 1];
      InitLoopAsWrittenState(prefix);
      LevelMapsCount(prefix);
      if last.0 != MS1 && MsnCount(prefix) == 0 {
        var m := AddScans(map[], last.1);
        assert LevelMaps(levels) == [m];
        assert [map[]][0 := m] == [m];
      }
    }
  }

  /** As written, init agrees with the intended maps exactly when there is at most one MSn level. */
  lemma InitAsWrittenAgrees(levels: seq<(MSN, seq<Scan>)>)
    ensures InitAsWritten(levels).Some? <==> |levels| < 2 || MsnCount(levels) <= 1
    ensures InitAsWritten(levels).Some? ==> InitAsWritten(levels).value == InitMaps(levels)
  {
    InitLoopAsWrittenState(levels);
  }

  /** An empty level with the given MSn. */
  function Level(m: MSN): (MSN, seq<Scan>)
  {
    (m, [])
  }

  /** A container with MS1, MS2 and MS3 levels makes init as written fail, where the intended maps hold
      one map per MSn level. */
  lemma InitAsWrittenFailsOnMs3()
    ensures InitAsWritten([Level(MS1), Level(MS2), Level(MS3)]).None?
    ensures |InitMaps([Level(MS1), Level(MS2), Level(MS3)])| == 2
  {
    var levels := [Level(MS1), Level(MS2), Level(MS3)];
    assert levels[..2] == [Level(MS1), Level(MS2)];
    assert levels[..2][..1] == [Level(MS1)];
    assert levels[..2][..1][..0] == [];
    assert MsnCount(levels[..2][..1]) == 0;
    assert MsnCount(levels[..2]) == 1;
    InitAsWrittenAgrees(levels);
    LevelMapsCount(levels);
  }

  /** getChildren: the (level, child id) pairs of the children of parentId at level msn whose precursor
      m/z is within EPSILON of mz, and recursively their own children at the next level. */
  function Children(msnMap: seq<LevelMap>, parentId: int, mz: real, msn: nat): set<(int, int)>
    decreases |msnMap| - msn, 1
  {
    if msn >= |msnMap| || parentId !in msnMap[msn] then {}
    else
      var entries := msnMap[msn][parentId];
      set c, e | c in entries && Abs(entries[c] - mz) <= EPSILON && e in Descendants(msnMap, c, entries[c], msn) :: e
  }

  /** A child found at level msn, followed by its own children at the next level. */
  function Descendants(msnMap: seq<LevelMap>, child: int, mz: real, msn: nat): set<(int, int)>
    requires msn < |msnMap|
    decreases |msnMap| - msn, 0
  {
    {(msn as int, child)} + Children(msnMap, child, mz, msn + 1)
  }

  /** Every pair found from level msn has a level between msn and the last map. */
  lemma {:induction false} ChildrenLevels(msnMap: seq<LevelMap>, parentId: int, mz: real, msn: nat, e: (int, int))
    requires e in Children(msnMap, parentId, mz, msn)
    ensures msn <= e.0 < |msnMap|
    decreases |msnMap| - msn
  {
    var entries := msnMap[msn][parentId];
    var c :| c in entries && Abs(entries[c] - mz) <= EPSILON &&
             e in Descendants(msnMap, c, entries[c], msn);
    if e != (msn as int, c) {
      ChildrenLevels(msnMap, c, entries[c], msn + 1, e);
    }
  }

  /** The pairs at the first level searched are exactly the direct children within tolerance. */
  lemma DirectChildren(msnMap: seq<LevelMap>, parentId: int, mz: real, msn: nat, child: int)
    ensures (msn as int, child) in Children(msnMap, parentId, mz, msn) <==>
      msn < |msnMap| && parentId in msnMap[msn] && child in msnMap[msn][parentId] &&
      Abs(msnMap[msn][parentId][child] - mz) <= EPSILON
  {
    var e := (msn as int, child);
    if e in Children(msnMap, parentId, mz, msn) {
      var entries := msnMap[msn][parentId];
      var c :| c in entries && Abs(entries[c] - mz) <= EPSILON &&
               e in Descendants(msnMap, c, entries[c], msn);
      if e != (msn as int, c) {
        ChildrenLevels(msnMap, c, entries[c], msn + 1, e);
      }
    } else if msn < |msnMap| && parentId in msnMap[msn] && child in msnMap[msn][parentId] {
      var entries := msnMap[msn][parentId];
      assert e in Descendants(msnMap, child, entries[child], msn);
    }
  }

  /** A pair of a deeper level is found exactly when it descends from a direct child within tolerance,
      searched from that child's id and precursor m/z. */
  lemma DeeperChildren(msnMap: seq<LevelMap>, parentId: int, mz: real, msn: nat, e: (int, int))
    requires e.0 > msn
    ensures e in Children(msnMap, parentId, mz, msn) <==>
      msn < |msnMap| && parentId in msnMap[msn] &&
      exists c :: c in msnMap[msn][parentId] && Abs(msnMap[msn][parentId][c] - mz) <= EPSILON &&
        e in Children(msnMap, c, msnMap[msn][parentId][c], msn + 1)
  {
    if msn < |msnMap| && parentId in msnMap[msn] {
      var entries := msnMap[msn][parentId];
      if e in Children(msnMap, parentId, mz, msn) {
        var c :| c in entries && Abs(entries[c] - mz) <= EPSILON &&
                 e in Descendants(msnMap, c, entries[c], msn);
        assert e != (msn as int, c);
      }
      if exists c :: c in entries && Abs(entries[c] - mz) <= EPSILON && e in Children(msnMap, c, entries[c], msn + 1) {
        var c :| c in entries && Abs(entries[c] - mz) <= EPSILON && e in Children(msnMap, c, entries[c], msn + 1);
        assert e in Descendants(msnMap, c, entries[c], msn);
      }
    }
  }

  class ProfileMsnHelper {
    /** The maps of the MSn levels; map 0 is that of MS2. */
    var msnMap: seq<LevelMap>

    /** Builds the maps from the levels of a raw container, each with its scans in iteration order. */
    constructor (levels: seq<(MSN, seq<Scan>)>)
      ensures msnMap == InitMaps(levels)
    {
      msnMap := [];
      new;
      Init(levels);
    }

    /** init, creating the map of an MSn level when it is reached. */
    method Init(levels: seq<(MSN, seq<Scan>)>)
      requires msnMap == []
      modifies this
      ensures msnMap == InitMaps(levels)
    {
      var msn := 0;
      if |levels| < 2 {
        return;
      }
      msnMap := msnMap + [map[]];
      var i := 0;
      while i < |levels|
        invariant 0 <= i <= |levels|
        invariant msnMap == Started(LevelMaps(levels[..i])) && msn == |LevelMaps(levels[..i])|
      {
        assert levels[..i + 1][..i] == levels[..i];
        var level := levels[i];
        if level.0 != MS1 {
          if msn == |msnMap| {
            msnMap := msnMap + [map[]];
          }
          var currentMap := FileScans(msnMap[msn], level.1);
          msnMap := msnMap[msn := currentMap];
          msn := msn + 1;
        }
        i := i + 1;
      }
      assert levels[..|levels|] == levels;
    }

    /** The scan loop of init: files the scans of one level into its map. */
    static method FileScans(currentMap: LevelMap, scans: seq<Scan>) returns (m: LevelMap)
      ensures m == AddScans(currentMap, scans)
    {
      m := currentMap;
      var j := 0;
      while j < |scans|
        invariant 0 <= j <= |scans| && m == AddScans(currentMap, scans[..j])
      {
        assert scans[..j + 1][..j] == scans[..j];
        var scan := scans[j];
        if scan.parentScan != -1 {
          if scan.parentScan in m {
            m := m[scan.parentScan := m[scan.parentScan][scan.index := scan.parentMz]];
          } else {
            m := m[scan.parentScan := map[scan.index := scan.parentMz]];
          }
        }
        j := j + 1;
      }
      assert scans[..|scans|] == scans;
    }

    /** getChildIds: all descendants of the precursor, keyed by their 0-based MSn level offset. */
    method GetChildIds(parentId: int, mz: real) returns (r: set<(int, int)>)
      ensures r == Children(msnMap, parentId, mz, 0)
      ensures forall e :: e in r ==> 0 <= e.0 < |msnMap|
    {
      r := Children(msnMap, parentId, mz, 0);
      forall e | e in r
        ensures 0 <= e.0 < |msnMap|
      {
        ChildrenLevels(msnMap, parentId, mz, 0, e);
      }
    }
  }

  /** A container of fewer than two levels has no maps, so no query finds children. */
  lemma NoLevelsNoChildren(levels: seq<(MSN, seq<Scan>)>, parentId: int, mz: real)
    requires |levels| < 2
    ensures Children(InitMaps(levels), parentId, mz, 0) == {}
  {
  }
}
