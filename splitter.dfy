/** ProfileSplitter (trace builder): cuts each mass trace into profiles at its zero-intensity points.
    A profile is closed by a zero point once it holds more than one point; the next profile starts at
    the following point, or at the closing zero itself when the following point is not zero. */
module Splitter {
  import opened Wrappers
  import opened Ranges
  import opened Points

  /** A profile as the splitter builds it: its id, its points and the m/z range of its trace. */
  datatype Profile = Profile(id: int, data: seq<XYZPoint>, mzRange: Interval)

  /** An emitted profile as a cut of the trace: id and the slice [start, end) it holds. */
  datatype Cut = Cut(id: int, start: int, end: int)

  /** The loop state of extractTraces: isNew, whether a profile was started in this trace, the start of
      the current profile, its id, and the id counter. */
  datatype SplitState = SplitState(isNew: bool, started: bool, st: int, pid: int, next: int)

  /** The state at the start of a trace, with the counter carried over from earlier traces. */
  function Initial(id: int): SplitState
  {
    SplitState(true, false, 0, 0, id)
  }

  ghost predicate Reachable(data: seq<XYZPoint>, i: nat, s: SplitState)
  {
    i <= |data| && (s.started ==> 0 <= s.st < i) && (!s.isNew ==> s.started)
  }

  /** The isNew branch of extractTraces at point i: a new profile (with the next id) starts at the
      preceding point when point i is not zero and an earlier profile exists, else at point i. */
  function Advance(data: seq<XYZPoint>, i: nat, s: SplitState): (t: SplitState)
    requires Reachable(data, i, s) && i < |data|
    ensures Reachable(data, i + 1, t) && !t.isNew
  {
    if !s.isNew then s
    else if data[i].z != 0.0 && s.started then SplitState(false, true, i - 1, s.next, s.next + 1)
    else SplitState(false, true, i, s.next, s.next + 1)
  }

  /** The cuts extractTraces emits from point i on, and the id counter at the end. */
  function SplitFrom(data: seq<XYZPoint>, i: nat, s: SplitState): (seq<Cut>, int)
    requires Reachable(data, i, s)
    decreases |data| - i
  {
    if i == |data| then ([], s.next)
    else
      var t := Advance(data, i, s);
      if data[i].z == 0.0 && i + 1 - t.st > 1 then
        var r := SplitFrom(data, i + 1, t.(isNew := true));
        ([Cut(t.pid, t.st, i + 1)] + r.0, r.1)
      else SplitFrom(data, i + 1, t)
  }

  /** A cut holds at least two points, ends with a zero point and has no zero strictly inside. */
  ghost predicate WellFormed(data: seq<XYZPoint>, c: Cut)
  {
    0 <= c.start && c.start + 2 <= c.end <= |data| && data[c.end - 1].z == 0.0 &&
    forall j :: c.start < j < c.end - 1 ==> data[j].z != 0.0
  }

  ghost predicate AllWellFormed(data: seq<XYZPoint>, cuts: seq<Cut>)
  {
    forall k :: 0 <= k < |cuts| ==> WellFormed(data, cuts[k])
  }

  /** Where the profile after a cut ending at e starts: at the closing zero when point e is not zero. */
  function NextStart(data: seq<XYZPoint>, e: int): int
    requires 0 < e < |data|
  {
    if data[e].z != 0.0 then e - 1 else e
  }

  /** Consecutive cuts follow each other along the trace. */
  ghost predicate Chained(data: seq<XYZPoint>, cuts: seq<Cut>)
  {
    forall k :: 0 <= k < |cuts| - 1 ==>
      0 < cuts[k].end < |data| && cuts[k + 1].start == NextStart(data, cuts[k].end)
  }

  /** The ids of the cuts count up by one from first. */
  ghost predicate Numbered(cuts: seq<Cut>, first: int)
  {
    forall k :: 0 <= k < |cuts| ==> cuts[k].id == first + k
  }

  /** The state is one the loop reaches: an open profile has no zero after its first point, and a
      profile is only started anew right after the zero that closed the previous one. */
  ghost predicate Consistent(data: seq<XYZPoint>, i: nat, s: SplitState)
  {
    Reachable(data, i, s) &&
    (s.isNew && s.started ==> data[i - 1].z == 0.0) &&
    (!s.isNew ==> s.pid == s.next - 1 && forall j :: s.st < j < i ==> data[j].z != 0.0)
  }

  /** Where the first cut from state s at i starts, and its id. */
  function FirstStart(data: seq<XYZPoint>, i: nat, s: SplitState): int
    requires i < |data|
  {
    if !s.isNew then s.st else if s.started && data[i].z != 0.0 then i - 1 else i
  }

  function FirstId(s: SplitState): int
  {
    if s.isNew then s.next else s.pid
  }

  /** Whether a profile is still open after the last cut: the trace goes on past the last cut's end
      (or, with no cut, there is an open profile or some point left). */
  function OpenTail(data: seq<XYZPoint>, i: nat, s: SplitState, cuts: seq<Cut>): bool
  {
    if |cuts| == 0 then !s.isNew || i < |data| else cuts[|cuts| - 1].end < |data|
  }

  /** Every cut is well formed, starts inside the range the loop still covers, and the first one starts
      where the current profile does. */
  lemma {:induction false} SplitWellFormed(data: seq<XYZPoint>, i: nat, s: SplitState)
    requires Consistent(data, i, s)
    ensures var cuts := SplitFrom(data, i, s).0;
      AllWellFormed(data, cuts) &&
      (|cuts| > 0 ==> i < |data| && cuts[0].start == FirstStart(data, i, s)) &&
      (forall k :: 0 <= k < |cuts| ==> cuts[k].end > i)
    decreases |data| - i
  {
    if i < |data| {
      var dp := data[i];
      var t := Advance(data, i, s);
      if dp.z == 0.0 && i + 1 - t.st > 1 {
        SplitWellFormed(data, i + 1, t.(isNew := true));
        var r := SplitFrom(data, i + 1, t.(isNew := true));
        assert SplitFrom(data, i, s).0 == [Cut(t.pid, t.st, i + 1)] + r.0;
        assert WellFormed(data, Cut(t.pid, t.st, i + 1));
      } else {
        SplitWellFormed(data, i + 1, t);
      }
    }
  }

  /** Consecutive cuts follow each other: the next profile starts at the closing zero of the previous one
      or right after it. */
  lemma {:induction false} SplitChained(data: seq<XYZPoint>, i: nat, s: SplitState)
    requires Consistent(data, i, s)
    ensures Chained(data, SplitFrom(data, i, s).0)
    decreases |data| - i
  {
    if i < |data| {
      var dp := data[i];
      var t := Advance(data, i, s);
      if dp.z == 0.0 && i + 1 - t.st > 1 {
        var u := t.(isNew := true);
        SplitChained(data, i + 1, u);
        SplitWellFormed(data, i + 1, u);
        var r := SplitFrom(data, i + 1, u).0;
        var cuts := [Cut(t.pid, t.st, i + 1)] + r;
        assert SplitFrom(data, i, s).0 == cuts;
        forall k | 0 <= k < |cuts| - 1
          ensures 0 < cuts[k].end < |data| && cuts[k + 1].start == NextStart(data, cuts[k].end)
        {
          if k > 0 {
            assert cuts[k] == r[k - 1] && cuts[k + 1] == r[k];
          }
        }
      } else {
        SplitChained(data, i + 1, t);
      }
    }
  }

  /** The emitted ids count up by one from the first started profile, and the counter ends one past the
      last emitted id, or two past it when a profile is left open at the end of the trace. */
  lemma {:induction false} SplitNumbered(data: seq<XYZPoint>, i: nat, s: SplitState)
    requires Consistent(data, i, s)
    ensures var r := SplitFrom(data, i, s);
      Numbered(r.0, FirstId(s)) && r.1 == FirstId(s) + |r.0| + (if OpenTail(data, i, s, r.0) then 1 else 0)
    decreases |data| - i
  {
    if i < |data| {
      var dp := data[i];
      var t := Advance(data, i, s);
      if dp.z == 0.0 && i + 1 - t.st > 1 {
        var u := t.(isNew := true);
        SplitNumbered(data, i + 1, u);
        var r := SplitFrom(data, i + 1, u);
        var cuts := [Cut(t.pid, t.st, i + 1)] + r.0;
        assert SplitFrom(data, i, s).0 == cuts;
        forall k | 0 <= k < |cuts|
          ensures cuts[k].id == FirstId(s) + k
        {
          if k > 0 { assert cuts[k] == r.0[k - 1]; }
        }
        if |r.0| > 0 {
          assert cuts[|cuts| - 1] == r.0[|r.0| - 1];
        }
      } else {
        SplitNumbered(data, i + 1, t);
      }
    }
  }

  /** Where the profile that is open after the cuts from state s at i starts: after the last cut,
      NextStart of its end (the trace's length when the cut ends the trace); with no cut, where the
      current profile starts. */
  function TailStart(data: seq<XYZPoint>, i: nat, s: SplitState, cuts: seq<Cut>): int
  {
    if |cuts| == 0 then (if i < |data| then FirstStart(data, i, s) else |data|)
    else
      var e := cuts[|cuts| - 1].end;
      if 0 < e < |data| then NextStart(data, e) else |data|
  }

  /** The points after the start of the profile left open at the end hold no zero, so that profile never
      closed: the cuts are all the profiles of the trace. */
  lemma {:induction false} SplitTail(data: seq<XYZPoint>, i: nat, s: SplitState)
    requires Consistent(data, i, s)
    ensures var cuts := SplitFrom(data, i, s).0;
      (|cuts| > 0 ==> cuts[|cuts| - 1].end > i) &&
      forall j :: i <= j < |data| && TailStart(data, i, s, cuts) < j ==> data[j].z != 0.0
    decreases |data| - i
  {
    if i < |data| {
      var t := Advance(data, i, s);
      if data[i].z == 0.0 && i + 1 - t.st > 1 {
        var u := t.(isNew := true);
        SplitTail(data, i + 1, u);
        var r := SplitFrom(data, i + 1, u).0;
        var cuts := [Cut(t.pid, t.st, i + 1)] + r;
        assert SplitFrom(data, i, s).0 == cuts;
        if |r| > 0 {
          assert cuts[|cuts| - 1] == r[|r| - 1];
          assert TailStart(data, i, s, cuts) == TailStart(data, i + 1, u, r);
        } else if i + 1 < |data| {
          assert TailStart(data, i, s, cuts) == FirstStart(data, i + 1, u);
        }
      } else {
        SplitTail(data, i + 1, t);
        var r := SplitFrom(data, i + 1, t).0;
        assert SplitFrom(data, i, s).0 == r;
        if |r| == 0 {
          assert TailStart(data, i, s, r) == t.st;
          assert data[i].z == 0.0 ==> i <= t.st;
        }
      }
    }
  }

  /** A whole trace: the cuts are well formed, chained from its first point and numbered from the counter
      at the start; the points after the last cut hold no closing zero, so they form an unfinished
      profile, which is left out and uses up one id. */
  lemma TraceCuts(data: seq<XYZPoint>, id: int)
    ensures var r := SplitFrom(data, 0, Initial(id));
      AllWellFormed(data, r.0) && Chained(data, r.0) && Numbered(r.0, id) &&
      (|r.0| > 0 ==> r.0[0].start == 0) &&
      r.1 == id + |r.0| + (if OpenTail(data, 0, Initial(id), r.0) then 1 else 0) &&
      forall j :: TailStart(data, 0, Initial(id), r.0) < j < |data| ==> data[j].z != 0.0
  {
    SplitTail(data, 0, Initial(id));
    SplitWellFormed(data, 0, Initial(id));
    SplitChained(data, 0, Initial(id));
    SplitNumbered(data, 0, Initial(id));
  }

  /** Every cut lies inside the trace. */
  ghost predicate Inside(data: seq<XYZPoint>, cuts: seq<Cut>)
  {
    forall k :: 0 <= k < |cuts| ==> 0 <= cuts[k].start <= cuts[k].end <= |data|
  }

  /** The profiles of a list of cuts. */
  function ProfilesOf(data: seq<XYZPoint>, cuts: seq<Cut>, mzRange: Interval): (ps: seq<Profile>)
    requires Inside(data, cuts)
    ensures |ps| == |cuts|
  {
    if |cuts| == 0 then []
    else
      var c := cuts[|cuts| - 1];
      ProfilesOf(data, cuts[..|cuts| - 1], mzRange) + [Profile(c.id, data[c.start .. c.end], mzRange)]
  }

  /** The loop of extractTraces at point i in state s has emitted the cuts `emitted` of the whole
      trace's cuts `total`. */
  ghost predicate Tracks(data: seq<XYZPoint>, i: nat, s: SplitState, emitted: seq<Cut>, total: (seq<Cut>, int))
  {
    Reachable(data, i, s) && Inside(data, emitted) &&
    total.0 == emitted + SplitFrom(data, i, s).0 && total.1 == SplitFrom(data, i, s).1
  }

  /** One loop step keeps Tracks: with the emitted cut when the point closes the profile, else without. */
  lemma TracksStep(data: seq<XYZPoint>, i: nat, s: SplitState, emitted: seq<Cut>, total: (seq<Cut>, int))
    requires Tracks(data, i, s, emitted, total) && i < |data|
    ensures var t := Advance(data, i, s);
      if data[i].z == 0.0 && i + 1 - t.st > 1
      then Tracks(data, i + 1, t.(isNew := true), emitted + [Cut(t.pid, t.st, i + 1)], total)
      else Tracks(data, i + 1, t, emitted, total)
  {
    SplitStep(data, i, s);
  }

  class ProfileSplitter {
    /** The id counter, kept across traces. */
    var id: int
    /** The profiles added to the output container, in order. */
    var profiles: seq<Profile>

    constructor ()
      ensures id == 0 && profiles == []
    {
      id := 0;
      profiles := [];
    }

    /** extractTraces: appends the profiles cut from one trace and advances the id counter past every
        profile started in it. */
    method ExtractTraces(data: seq<XYZPoint>, mzRange: Interval)
      modifies this
      ensures var r := SplitFrom(data, 0, Initial(old(id)));
        AllWellFormed(data, r.0) && profiles == old(profiles) + ProfilesOf(data, r.0, mzRange) && id == r.1
    {
      ghost var total := SplitFrom(data, 0, Initial(id));
      ghost var s := Initial(id);
      ghost var emitted: seq<Cut> := [];
      var nextId, out := id, profiles;
      var isNew := true;
      var partProfile: Option<Profile> := None;
      var i := 0;
      while i < |data|
        invariant 0 <= i <= |data| && Tracks(data, i, s, emitted, total)
        invariant isNew == s.isNew && partProfile.Some? == s.started && nextId == s.next
        invariant !isNew ==> partProfile.value == Profile(s.pid, data[s.st .. i], mzRange)
        invariant out == old(profiles) + ProfilesOf(data, emitted, mzRange)
        decreases |data| - i
      {
        ghost var s0 := s;
        TracksStep(data, i, s0, emitted, total);
        AdvanceSlice(data, i, s0);
        var dp := data[i];
        if isNew {
          if dp.z != 0.0 && partProfile != None {
            partProfile := Some(Profile(nextId, [data[i - 1]] + [dp], mzRange));
          } else {
            partProfile := Some(Profile(nextId, [dp], mzRange));
          }
          nextId := nextId + 1;
          isNew := false;
        } else {
          partProfile := Some(partProfile.value.(data := partProfile.value.data + [dp]));
        }
        s := Advance(data, i, s0);
        if dp.z == 0.0 && |partProfile.value.data| > 1 {
          var c := Cut(s.pid, s.st, i + 1);
          ProfilesSnoc(data, old(profiles), out, emitted, c, partProfile.value, mzRange);
          out := out + [partProfile.value];
          emitted := emitted + [c];
          s := s.(isNew := true);
          isNew := true;
        }
        i := i + 1;
      }
      assert emitted == total.0;
      SplitWellFormed(data, 0, Initial(old(id)));
      id, profiles := nextId, out;
    }
  }

  /** The points of the current profile after the isNew branch, as slices of the trace. */
  lemma AdvanceSlice(data: seq<XYZPoint>, i: nat, s: SplitState)
    requires Reachable(data, i, s) && i < |data|
    ensures var t := Advance(data, i, s);
      (s.isNew && data[i].z != 0.0 && s.started ==> data[t.st .. i + 1] == [data[i - 1]] + [data[i]]) &&
      (s.isNew && !(data[i].z != 0.0 && s.started) ==> data[t.st .. i + 1] == [data[i]]) &&
      (!s.isNew ==> data[t.st .. i + 1] == data[s.st .. i] + [data[i]])
  {
    var t := Advance(data, i, s);
    if !s.isNew {
      assert data[t.st .. i + 1] == data[s.st .. i] + [data[i]];
    }
  }

  /** One step of SplitFrom. */
  lemma SplitStep(data: seq<XYZPoint>, i: nat, s: SplitState)
    requires Reachable(data, i, s) && i < |data|
    ensures var t := Advance(data, i, s);
      SplitFrom(data, i, s) ==
        if data[i].z == 0.0 && i + 1 - t.st > 1 then
          var r := SplitFrom(data, i + 1, t.(isNew := true));
          ([Cut(t.pid, t.st, i + 1)] + r.0, r.1)
        else SplitFrom(data, i + 1, t)
  {
  }

  /** Appending the profile of cut c to the profiles of cuts gives the profiles of cuts + [c]. */
  lemma ProfilesSnoc(data: seq<XYZPoint>, before: seq<Profile>, out: seq<Profile>, cuts: seq<Cut>, c: Cut,
                     p: Profile, mzRange: Interval)
    requires Inside(data, cuts) && 0 <= c.start <= c.end <= |data|
    requires out == before + ProfilesOf(data, cuts, mzRange)
    requires p == Profile(c.id, data[c.start .. c.end], mzRange)
    ensures Inside(data, cuts + [c]) && out + [p] == before + ProfilesOf(data, cuts + [c], mzRange)
  {
    assert (cuts + [c])[..|cuts|] == cuts;
  }
}
