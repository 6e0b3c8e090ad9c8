/** RunningMedianSmoothing: a sliding window of the last mzWindow intensities, shared by every scan, whose
    median is subtracted from each intensity; points that would become negative are dropped. */
module Smoothing {
  import opened Wrappers
  import opened Points
  import opened MathUtils

  /** Inserts x before the first element not below it. */
  function Insert(x: real, s: seq<real>): (r: seq<real>)
    ensures |r| == |s| + 1 && r[0] == if |s| == 0 || x <= s[0] then x else s[0]
    decreases |s|
  {
    if |s| == 0 then [x]
    else if x <= s[0] then [x] + s
    else [s[0]] + Insert(x, s[1..])
  }

  /** Inserting adds exactly x. */
  lemma {:induction false} InsertAdds(x: real, s: seq<real>)
    ensures multiset(Insert(x, s)) == multiset(s) + multiset{x}
    decreases |s|
  {
    if |s| > 0 && x > s[0] {
      var t := Insert(x, s[1..]);
      InsertAdds(x, s[1..]);
      assert s == [s[0]] + s[1..];
      calc {
        multiset(Insert(x, s));
        multiset([s[0]] + t);
        multiset{s[0]} + multiset(t);
        multiset{s[0]} + multiset(s[1..]) + multiset{x};
        multiset(s) + multiset{x};
      }
    }
  }

  /** A sorted sequence stays sorted with a first element not above its head. */
  lemma SortedCons(v: real, t: seq<real>)
    requires Sorted(t) && (|t| > 0 ==> v <= t[0])
    ensures Sorted([v] + t)
  {
    forall i, j | 0 <= i < j < |t| + 1
      ensures ([v] + t)[i] <= ([v] + t)[j]
    {
      if i == 0 { assert t[0] <= t[j - 1]; }
    }
  }

  /** Inserting into a sorted sequence keeps it sorted. */
  lemma {:induction false} InsertSorted(x: real, s: seq<real>)
    requires Sorted(s)
    ensures Sorted(Insert(x, s))
    decreases |s|
  {
    if |s| > 0 {
      if x <= s[0] {
        SortedCons(x, s);
      } else {
        var t := Insert(x, s[1..]);
        assert Sorted(s[1..]);
        InsertSorted(x, s[1..]);
        if |s| > 1 { assert s[0] <= s[1]; }
        SortedCons(s[0], t);
      }
    }
  }

  /** Arrays.sort on a copy of the window, as insertion sort. */
  function SortAsc(s: seq<real>): (r: seq<real>)
    ensures |r| == |s|
  {
    if |s| == 0 then [] else Insert(s[0], SortAsc(s[1..]))
  }

  /** The sorted copy is in ascending order and holds the same values. */
  lemma SortAscSorts(s: seq<real>)
    ensures Sorted(SortAsc(s)) && multiset(SortAsc(s)) == multiset(s)
  {
    SortAscSorted(s);
    SortAscContents(s);
  }

  lemma {:induction false} SortAscSorted(s: seq<real>)
    ensures Sorted(SortAsc(s))
  {
    if |s| > 0 {
      SortAscSorted(s[1..]);
      InsertSorted(s[0], SortAsc(s[1..]));
    }
  }

  lemma {:induction false} SortAscContents(s: seq<real>)
    ensures multiset(SortAsc(s)) == multiset(s)
  {
    if |s| > 0 {
      SortAscContents(s[1..]);
      InsertAdds(s[0], SortAsc(s[1..]));
      assert s == [s[0]] + s[1..];
    }
  }

  /** newNum: append the value and evict the oldest one once the window holds more than cap values. */
  function Slide(w: seq<real>, num: real, cap: int): seq<real>
  {
    var a := w + [num];
    if |a| > cap then a[1..] else a
  }

  /** The window holds at most cap values (none when cap is not positive). */
  predicate Bounded(w: seq<real>, cap: int)
  {
    |w| <= cap || |w| == 0
  }

  /** The last k values of s. */
  function Last(s: seq<real>, k: nat): seq<real>
    requires k <= |s|
  {
    s[|s| - k..]
  }

  /** How many values the window holds after n values were fed into a window of length m. */
  function Held(m: nat, n: nat, cap: int): nat
  {
    if cap <= 0 then 0 else if m + n < cap then m + n else cap
  }

  /** newNum keeps the window bounded and holds the newest values, the oldest one evicted first. */
  lemma SlideKeepsNewest(w: seq<real>, num: real, cap: int)
    requires Bounded(w, cap)
    ensures var r := Slide(w, num, cap);
      Bounded(r, cap) && |r| == Held(|w|, 1, cap) && r == Last(w + [num], |r|) && (|r| > 0 ==> r[|r| - 1] == num)
  {
  }

  /** newNum applied to each value in turn. */
  function Feed(w: seq<real>, xs: seq<real>, cap: int): seq<real>
    decreases |xs|
  {
    if |xs| == 0 then w else Slide(Feed(w, xs[..|xs| - 1], cap), xs[|xs| - 1], cap)
  }

  /** The window persists across scans: after any number of values it holds the newest cap values of
      everything fed so far. */
  lemma {:induction false} FeedKeepsNewest(w: seq<real>, xs: seq<real>, cap: int)
    requires Bounded(w, cap)
    ensures Held(|w|, |xs|, cap) <= |w| + |xs|
    ensures Feed(w, xs, cap) == Last(w + xs, Held(|w|, |xs|, cap)) && Bounded(Feed(w, xs, cap), cap)
    decreases |xs|
  {
    if |xs| > 0 {
      FeedKeepsNewest(w, xs[..|xs| - 1], cap);
      FeedSnocStep(w, xs, cap);
    }
  }

  /** The step of FeedKeepsNewest: one more value keeps the newest values of everything fed. */
  lemma FeedSnocStep(w: seq<real>, xs: seq<real>, cap: int)
    requires Bounded(w, cap) && |xs| > 0
    requires var init := xs[..|xs| - 1];
      Held(|w|, |init|, cap) <= |w| + |init| &&
      Feed(w, init, cap) == Last(w + init, Held(|w|, |init|, cap)) && Bounded(Feed(w, init, cap), cap)
    ensures Held(|w|, |xs|, cap) <= |w| + |xs|
    ensures Feed(w, xs, cap) == Last(w + xs, Held(|w|, |xs|, cap)) && Bounded(Feed(w, xs, cap), cap)
  {
    var init := xs[..|xs| - 1];
    var x := xs[|xs| - 1];
    var f := Feed(w, init, cap);
    SlideKeepsNewest(f, x, cap);
    HeldSnoc(|w|, |xs|, cap);
    var L := Held(|w|, |xs|, cap);
    LastSnoc(w + init, x, Held(|w|, |init|, cap), L);
    SnocAssoc(w, xs);
    calc {
      Feed(w, xs, cap);
      Slide(f, x, cap);
      Last(f + [x], L);
      Last(Last(w + init, Held(|w|, |init|, cap)) + [x], L);
      Last((w + init) + [x], L);
      Last(w + xs, L);
    }
  }

  lemma SnocAssoc(w: seq<real>, xs: seq<real>)
    requires |xs| > 0
    ensures (w + xs[..|xs| - 1]) + [xs[|xs| - 1]] == w + xs
  {
    assert xs[..|xs| - 1] + [xs[|xs| - 1]] == xs;
  }

  lemma HeldSnoc(m: nat, n: nat, cap: int)
    requires n > 0 && (m <= cap || m == 0)
    ensures Held(Held(m, n - 1, cap), 1, cap) == Held(m, n, cap) <= Held(m, n - 1, cap) + 1
  {
  }

  /** Keeping the newest values before or after appending one more gives the same newest L values. */
  lemma LastSnoc(t: seq<real>, x: real, h: nat, L: nat)
    requires h <= |t| && L <= h + 1
    ensures Last(Last(t, h) + [x], L) == Last(t + [x], L)
  {
    DropAppend(t, [x], |t| - h);
  }

  lemma DropAppend(a: seq<real>, b: seq<real>, d: nat)
    requires d <= |a|
    ensures a[d..] + b == (a + b)[d..]
  {
  }

  /** getMedian, with the median as evidently intended: 0 unless the window holds exactly cap values,
      else the middle of the sorted window (the mean of the two middle values for an even length). */
  function WindowMedian(w: seq<real>, cap: int): real
  {
    if |w| == 0 || |w| != cap then 0.0 else Median(SortAsc(w))
  }

  /** A full window's median splits the sorted copy of the window in two halves. */
  lemma MedianSplitsWindow(w: seq<real>)
    requires |w| > 0
    ensures var s := SortAsc(w); var m := WindowMedian(w, |w|);
      multiset(s) == multiset(w) && Sorted(s) &&
      (forall i :: 0 <= i < |w| / 2 ==> s[i] <= m) &&
      (forall i :: |w| - |w| / 2 <= i < |w| ==> m <= s[i])
  {
    SortAscSorts(w);
    MedianIsSymmetric(SortAsc(w));
  }

  /** getMedian as written: the element at length/2 of the sorted window, averaged with the next one
      when the length is odd; None where that next index is past the end (a one-value window). */
  function WindowMedianAsWritten(w: seq<real>, cap: int): Option<real>
  {
    if |w| == 0 || |w| != cap then Some(0.0)
    else
      var s := SortAsc(w);
      var res := s[|s| / 2];
      if |s| % 2 != 0 then
        if |s| / 2 + 1 < |s| then Some((res + s[|s| / 2 + 1]) / 2.0) else None
      else Some(res)
  }

  /** As written, a sorted odd window [1, 2, 3] gives 2.5 instead of 2, an even window [1, 2] gives 2
      instead of 1.5, and a one-value window reads past the end of the array. */
  lemma WindowMedianAsWrittenDiffers()
    ensures WindowMedianAsWritten([1.0, 2.0, 3.0], 3) == Some(2.5) && WindowMedian([1.0, 2.0, 3.0], 3) == 2.0
    ensures WindowMedianAsWritten([1.0, 2.0], 2) == Some(2.0) && WindowMedian([1.0, 2.0], 2) == 1.5
    ensures WindowMedianAsWritten([5.0], 1) == None && WindowMedian([5.0], 1) == 5.0
  {
    assert SortAsc([3.0]) == [3.0];
    assert [2.0, 3.0][1..] == [3.0];
    assert SortAsc([2.0, 3.0]) == [2.0, 3.0];
    assert [1.0, 2.0, 3.0][1..] == [2.0, 3.0];
    assert SortAsc([1.0, 2.0, 3.0]) == [1.0, 2.0, 3.0];
    assert SortAsc([2.0]) == [2.0];
    assert [1.0, 2.0][1..] == [2.0];
    assert SortAsc([1.0, 2.0]) == [1.0, 2.0];
    assert SortAsc([5.0]) == [5.0];
  }

  /** The intensities kept in one scan: each value is fed to the window, then y - median is kept when it
      is not negative. */
  function SmoothFrom(w: seq<real>, cap: int, data: seq<XYPoint>): seq<XYPoint>
    decreases |data|
  {
    if |data| == 0 then []
    else
      var w1 := Slide(w, data[0].y, cap);
      var m := WindowMedian(w1, cap);
      var rest := SmoothFrom(w1, cap, data[1..]);
      if data[0].y - m < 0.0 then rest else [XYPoint(data[0].x, data[0].y - m)] + rest
  }

  /** Points with a non-negative intensity. */
  function NonNegative(data: seq<XYPoint>): (r: seq<XYPoint>)
    ensures forall k :: 0 <= k < |r| ==> r[k].y >= 0.0
    decreases |data|
  {
    if |data| == 0 then []
    else if data[0].y < 0.0 then NonNegative(data[1..])
    else [data[0]] + NonNegative(data[1..])
  }

  /** Every kept point has a non-negative intensity and no point is added. */
  lemma {:induction false} SmoothedNonNegative(w: seq<real>, cap: int, data: seq<XYPoint>)
    ensures var r := SmoothFrom(w, cap, data);
      |r| <= |data| && forall k :: 0 <= k < |r| ==> r[k].y >= 0.0
    decreases |data|
  {
    if |data| > 0 {
      SmoothedNonNegative(Slide(w, data[0].y, cap), cap, data[1..]);
    }
  }

  /** While the window is filling, the median is 0: the scan is only cleared of negative intensities. */
  lemma {:induction false} SmoothedWhileFilling(w: seq<real>, cap: int, data: seq<XYPoint>)
    requires |w| + |data| < cap
    ensures SmoothFrom(w, cap, data) == NonNegative(data)
    decreases |data|
  {
    if |data| > 0 {
      var w1 := Slide(w, data[0].y, cap);
      assert |w1| == |w| + 1;
      SmoothedWhileFilling(w1, cap, data[1..]);
    }
  }

  /** One point of the scan loop: the window slides, then the point is kept or dropped. */
  lemma SmoothStep(w0: seq<real>, w: seq<real>, cap: int, data: seq<XYPoint>, i: nat)
    requires i < |data|
    ensures var w1 := Slide(w, data[i].y, cap); var m := WindowMedian(w1, cap);
      Feed(w0, Ys(data[..i + 1]), cap) == Slide(Feed(w0, Ys(data[..i]), cap), data[i].y, cap) &&
      SmoothFrom(w, cap, data[i..]) ==
        if data[i].y - m < 0.0 then SmoothFrom(w1, cap, data[i + 1..])
        else [XYPoint(data[i].x, data[i].y - m)] + SmoothFrom(w1, cap, data[i + 1..])
  {
    assert data[i..][1..] == data[i + 1..];
    assert Ys(data[..i + 1])[..i] == Ys(data[..i]);
  }

  /** The MS1 scans smoothed in order, the window carried from each scan to the next. */
  function SmoothAll(w: seq<real>, cap: int, scans: seq<seq<XYPoint>>): (r: seq<seq<XYPoint>>)
    ensures |r| == |scans|
    decreases |scans|
  {
    if |scans| == 0 then []
    else [SmoothFrom(w, cap, scans[0])] + SmoothAll(Feed(w, Ys(scans[0]), cap), cap, scans[1..])
  }

  /** The window after the scans. */
  function WindowAfter(w: seq<real>, cap: int, scans: seq<seq<XYPoint>>): seq<real>
    decreases |scans|
  {
    if |scans| == 0 then w else WindowAfter(Feed(w, Ys(scans[0]), cap), cap, scans[1..])
  }

  /** A scan loop step: the first scan is smoothed from the current window, the rest from the window
      it leaves behind. */
  lemma SmoothAllStep(w: seq<real>, cap: int, scans: seq<seq<XYPoint>>, k: nat)
    requires k < |scans|
    ensures SmoothAll(w, cap, scans[k..]) ==
      [SmoothFrom(w, cap, scans[k])] + SmoothAll(Feed(w, Ys(scans[k]), cap), cap, scans[k + 1..])
    ensures WindowAfter(w, cap, scans[k..]) == WindowAfter(Feed(w, Ys(scans[k]), cap), cap, scans[k + 1..])
  {
    assert scans[k..][1..] == scans[k + 1..];
  }

  lemma PrependScan(done: seq<seq<XYPoint>>, p: seq<XYPoint>, rest: seq<seq<XYPoint>>)
    ensures (done + [p]) + rest == done + ([p] + rest)
  {
  }

  lemma PrependKept(done: seq<XYPoint>, p: XYPoint, rest: seq<XYPoint>)
    ensures (done + [p]) + rest == done + ([p] + rest)
  {
  }

  class RunningMedianSmoothing {
    /** The number of values the median is taken over. */
    const mzWindow: int
    /** The window queue, oldest value first. */
    var window: seq<real>

    constructor (mzWindow: int)
      ensures this.mzWindow == mzWindow && window == []
    {
      this.mzWindow := mzWindow;
      window := [];
    }

    ghost predicate Valid()
      reads this
    {
      Bounded(window, mzWindow)
    }

    /** newNum: appends the value, evicting the oldest one when the window is over its length. */
    method NewNum(num: real)
      requires Valid()
      modifies this
      ensures Valid() && window == Slide(old(window), num, mzWindow)
    {
      window := window + [num];
      if |window| > mzWindow {
        window := window[1..];
      }
    }

    /** getMedian: copies the window into an array, sorts it and takes its median. */
    method GetMedian() returns (m: real)
      ensures m == WindowMedian(window, mzWindow)
    {
      if |window| == 0 || |window| != mzWindow {
        return 0.0;
      }
      var windowVal := new real[mzWindow];
      var i := 0;
      while i < |window|
        invariant 0 <= i <= |window| == windowVal.Length
        invariant windowVal[..i] == window[..i]
      {
        windowVal[i] := window[i];
        i := i + 1;
      }
      assert windowVal[..] == window;
      var sorted := SortAsc(windowVal[..]);
      m := Median(sorted);
    }

    /** The loop of call over the points of one MS1 scan: the window carries over from earlier scans. */
    method SmoothScan(data: seq<XYPoint>) returns (smoothed: seq<XYPoint>)
      requires Valid()
      modifies this
      ensures Valid() && smoothed == SmoothFrom(old(window), mzWindow, data)
      ensures window == Feed(old(window), Ys(data), mzWindow)
    {
      smoothed := [];
      var i := 0;
      while i < |data|
        invariant 0 <= i <= |data| && Valid()
        invariant smoothed + SmoothFrom(window, mzWindow, data[i..]) == SmoothFrom(old(window), mzWindow, data)
        invariant window == Feed(old(window), Ys(data[..i]), mzWindow)
      {
        var y := data[i].y;
        SmoothStep(old(window), window, mzWindow, data, i);
        NewNum(y);
        var m := GetMedian();
        if y - m >= 0.0 {
          PrependKept(smoothed, XYPoint(data[i].x, y - m), SmoothFrom(window, mzWindow, data[i + 1..]));
          smoothed := smoothed + [XYPoint(data[i].x, y - m)];
        }
        i := i + 1;
      }
      assert data[..|data|] == data;
    }

    /** The MS1 branch of call: the scans are smoothed in order, and the window persists from each scan
        to the next. */
    method SmoothScans(scans: seq<seq<XYPoint>>) returns (out: seq<seq<XYPoint>>)
      requires Valid()
      modifies this
      ensures Valid() && out == SmoothAll(old(window), mzWindow, scans)
      ensures window == WindowAfter(old(window), mzWindow, scans)
    {
      out := [];
      var k := 0;
      while k < |scans|
        invariant 0 <= k <= |scans| && Valid()
        invariant out + SmoothAll(window, mzWindow, scans[k..]) == SmoothAll(old(window), mzWindow, scans)
        invariant WindowAfter(window, mzWindow, scans[k..]) == WindowAfter(old(window), mzWindow, scans)
      {
        SmoothAllStep(window, mzWindow, scans, k);
        var smoothed := SmoothScan(scans[k]);
        PrependScan(out, smoothed, SmoothAll(window, mzWindow, scans[k + 1..]));
        out := out + [smoothed];
        k := k + 1;
      }
    }
  }
}
