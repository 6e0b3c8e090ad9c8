/** XYTrace and XYZTrace: m/z traces with a fixed anchor and a running m/z average. */
module Traces {
  import opened Numerics
  import opened Points
  import opened DataUtils

  /** The m/z values of an XYZ trace's points (their y coordinates). */
  function Mzs(s: seq<XYZPoint>): (r: seq<real>)
    ensures |r| == |s| && forall i :: 0 <= i < |s| ==> r[i] == s[i].y
  {
    seq(|s|, i requires 0 <= i < |s| => s[i].y)
  }

  /** compareTo of two traces: -1, 0 or 1 by their anchors; equals compares the anchors too. */
  function CompareAnchors(a: real, b: real): (r: int)
    ensures r == 0 <==> a == b
    ensures (r < 0) == (a < b) && (r > 0) == (b < a)
  {
    if a < b then -1 else if a > b then 1 else 0
  }

  /** An m/z trace of XYPoints seeded with an anchor point. */
  class XYTrace {
    const mzAnchor: real
    var mzs: seq<XYPoint>
    var n: int
    var avg: real

    /** n counts the points and avg is the mean of their x values. */
    ghost predicate Valid()
      reads this
    {
      |mzs| >= 1 && mzs[0].x == mzAnchor && n == |mzs| && avg == Average(Xs(mzs))
    }

    function Key(): TraceKey
      reads this
    {
      TraceKey(mzAnchor, avg)
    }

    constructor (anchor: XYPoint)
      ensures Valid() && mzAnchor == anchor.x && mzs == [anchor] && n == 1 && avg == anchor.x
    {
      mzAnchor := anchor.x;
      mzs := [anchor];
      n := 1;
      avg := anchor.x;
      assert Xs([anchor]) == [] + [anchor.x];
      SumAppend([], anchor.x);
    }

    /** add: appends the pair and folds its m/z into the average. */
    method Add(p: XYPoint)
      requires Valid()
      modifies this
      ensures Valid() && mzs == old(mzs) + [p] && n == old(n) + 1
      ensures avg == Average(Xs(mzs))
    {
      assert Xs(mzs + [p]) == Xs(mzs) + [p.x];
      AverageAppend(Xs(mzs), p.x);
      mzs := mzs + [p];
      avg := ((avg * (n as real)) + p.x) / ((n + 1) as real);
      n := n + 1;
    }

    /** compareTo and equals: the anchors alone decide. */
    function CompareTo(other: XYTrace): (r: int)
      ensures r == CompareAnchors(mzAnchor, other.mzAnchor)
    {
      if this == other then 0 else CompareAnchors(mzAnchor, other.mzAnchor)
    }
  }

  /** An m/z trace of (rt, m/z, intensity) triples. The average summarises `stats`, the m/z values
      the statistics stand for: those of the seed point and of every add, or, for a trace built from a
      list, as many copies of the given average as the list has points. */
  class XYZTrace {
    const mzAnchor: real
    var mzs: seq<XYZPoint>
    var n: int
    var avg: real
    ghost var stats: seq<real>

    ghost predicate Valid()
      reads this
    {
      n == |stats| && avg * (n as real) == Sum(stats)
    }

    function Key(): TraceKey
      reads this
    {
      TraceKey(mzAnchor, avg)
    }

    /** The seed constructor: the anchor point placed at retention time rt. */
    constructor (anchor: XYPoint, rt: real)
      ensures Valid() && mzAnchor == anchor.x && mzs == [XYZPoint(rt, anchor.x, anchor.y)]
      ensures n == 1 && avg == anchor.x && stats == [anchor.x]
    {
      mzAnchor := anchor.x;
      mzs := [XYZPoint(rt, anchor.x, anchor.y)];
      n := 1;
      avg := anchor.x;
      stats := [anchor.x];
      SumAppend([], anchor.x);
      assert [] + [anchor.x] == [anchor.x];
    }

    /** The list constructor: n is the list's size and the average is taken as given. */
    constructor FromList(anchor: real, points: seq<XYZPoint>, average: real)
      ensures Valid() && mzAnchor == anchor && mzs == points && n == |points| && avg == average
    {
      mzAnchor := anchor;
      mzs := points;
      n := |points|;
      avg := average;
      stats := Copies(average, |points|);
      CopiesSum(average, |points|);
    }

    /** add: appends the triple and folds its m/z (y) into the average. */
    method Add(p: XYZPoint)
      requires Valid()
      modifies this
      ensures Valid() && mzs == old(mzs) + [p] && n == old(n) + 1 && stats == old(stats) + [p.y]
      ensures avg == Average(stats)
    {
      ghost var total := Sum(stats);
      ghost var next := stats + [p.y];
      SumAppend(stats, p.y);
      var newAvg := ((avg * (n as real)) + p.y) / ((n + 1) as real);
      RunningMeanStep(avg, n, p.y, total);
      assert |next| == n + 1 && Sum(next) == total + p.y;
      assert newAvg == Average(next);
      mzs := mzs + [p];
      avg := newAvg;
      n := n + 1;
      stats := next;
    }

    /** push: prepends a triple; the statistics are not updated. */
    method Push(p: XYZPoint)
      modifies this
      ensures mzs == [p] + old(mzs)
      ensures n == old(n) && avg == old(avg) && stats == old(stats)
    {
      mzs := [p] + mzs;
    }

    function CompareTo(other: XYZTrace): (r: int)
      ensures r == CompareAnchors(mzAnchor, other.mzAnchor)
    {
      if this == other then 0 else CompareAnchors(mzAnchor, other.mzAnchor)
    }
  }

  /** One step of the running mean: the folded average times the new count is the new total. */
  lemma RunningMeanStep(avg: real, n: nat, y: real, total: real)
    requires avg * (n as real) == total
    ensures ((avg * (n as real)) + y) / ((n + 1) as real) * ((n + 1) as real) == total + y
    ensures ((avg * (n as real)) + y) / ((n + 1) as real) == (total + y) / ((n + 1) as real)
  {
  }

  function Copies(v: real, k: nat): (r: seq<real>)
    ensures |r| == k
  {
    seq(k, _ => v)
  }

  lemma {:induction false} CopiesSum(v: real, k: nat)
    ensures Sum(Copies(v, k)) == v * (k as real)
  {
    if k > 0 {
      assert Copies(v, k) == Copies(v, k - 1) + [v];
      CopiesSum(v, k - 1);
      SumAppend(Copies(v, k - 1), v);
    }
  }

  /** Once a trace's statistics hold a value, its average is their mean. */
  lemma ValidAvgIsMean(avg: real, stats: seq<real>)
    requires |stats| > 0 && avg * (|stats| as real) == Sum(stats)
    ensures avg == Average(stats)
  {
  }
}
