/** XYList: a list of XYPoints with coordinate extraction and a range query. */
module XYList {
  import opened Wrappers
  import opened Ranges
  import opened Points

  /** getFirst: element 0; None stands for the exception on an empty list. */
  function GetFirst(list: seq<XYPoint>): (r: Option<XYPoint>)
    ensures r.Some? <==> |list| > 0
    ensures r.Some? ==> r.value == list[0] && r.value in list
  {
    if |list| == 0 then None else Some(list[0])
  }

  /** getLast: element size - 1; None stands for the exception on an empty list. */
  function GetLast(list: seq<XYPoint>): (r: Option<XYPoint>)
    ensures r.Some? <==> |list| > 0
    ensures r.Some? ==> r.value == list[|list| - 1] && r.value in list
  {
    if |list| == 0 then None else Some(list[|list| - 1])
  }

  /** getXs: a fresh array of the x values, in list order. */
  method GetXs(list: seq<XYPoint>) returns (xs: array<real>)
    ensures fresh(xs) && xs[..] == Xs(list)
  {
    xs := new real[|list|];
    var i := 0;
    while i < |list|
      invariant 0 <= i <= |list|
      invariant forall k :: 0 <= k < i ==> xs[k] == list[k].x
    {
      xs[i] := list[i].x;
      i := i + 1;
    }
  }

  /** getYs: a fresh array of the y values, in list order. */
  method GetYs(list: seq<XYPoint>) returns (ys: array<real>)
    ensures fresh(ys) && ys[..] == Ys(list)
  {
    ys := new real[|list|];
    var i := 0;
    while i < |list|
      invariant 0 <= i <= |list|
      invariant forall k :: 0 <= k < i ==> ys[k] == list[k].y
    {
      ys[i] := list[i].y;
      i := i + 1;
    }
  }

  /** The indices getXsIndices collects from position i on: points below the lower bound are
      skipped, points inside the range are taken, and the first other point ends the scan. */
  function IndicesFrom(list: seq<XYPoint>, range: Interval, i: nat): seq<nat>
    requires i <= |list|
    decreases |list| - i
  {
    if i == |list| then []
    else if list[i].x - range.lower < 0.0 then IndicesFrom(list, range, i + 1)
    else if Contains(range, list[i].x) then [i] + IndicesFrom(list, range, i + 1)
    else []
  }

  /** getXsIndices as a loop with the source's early exit. */
  method GetXsIndices(list: seq<XYPoint>, range: Interval) returns (indices: seq<nat>)
    ensures indices == IndicesFrom(list, range, 0)
  {
    var index := 0;
    indices := [];
    while index < |list|
      invariant 0 <= index <= |list|
      invariant indices + IndicesFrom(list, range, index) == IndicesFrom(list, range, 0)
    {
      var p := list[index];
      if p.x - range.lower < 0.0 {
        index := index + 1;
        continue;
      } else if Contains(range, p.x) {
        indices := indices + [index];
      } else {
        assert IndicesFrom(list, range, index) == [];
        return;
      }
      index := index + 1;
    }
  }

  /** Every collected index is a point inside the range, the indices strictly increase, and they
      start no earlier than i. */
  lemma {:induction false} IndicesFromSound(list: seq<XYPoint>, range: Interval, i: nat)
    requires i <= |list|
    ensures forall k :: 0 <= k < |IndicesFrom(list, range, i)| ==>
              i <= IndicesFrom(list, range, i)[k] < |list| && Contains(range, list[IndicesFrom(list, range, i)[k]].x)
    ensures forall k, l :: 0 <= k < l < |IndicesFrom(list, range, i)| ==>
              IndicesFrom(list, range, i)[k] < IndicesFrom(list, range, i)[l]
    decreases |list| - i
  {
    if i < |list| {
      IndicesFromSound(list, range, i + 1);
    }
  }

  /** The scan stops at the first point that is neither below nor inside the range: no later index is taken. */
  lemma {:induction false} IndicesStopAtFirstAbove(list: seq<XYPoint>, range: Interval, i: nat, j: nat)
    requires i <= j < |list|
    requires !(list[j].x - range.lower < 0.0) && !Contains(range, list[j].x)
    ensures forall k :: 0 <= k < |IndicesFrom(list, range, i)| ==> IndicesFrom(list, range, i)[k] < j
    decreases j - i
  {
    if i < j {
      IndicesStopAtFirstAbove(list, range, i + 1, j);
    }
  }

  /** On a list sorted by x, getXsIndices finds exactly the indices whose x lies in the range. */
  lemma {:induction false} IndicesFromComplete(list: seq<XYPoint>, range: Interval, i: nat)
    requires i <= |list| && StrictlyIncreasingX(list)
    ensures forall k :: i <= k < |list| ==> (k in IndicesFrom(list, range, i) <==> Contains(range, list[k].x))
    decreases |list| - i
  {
    if i < |list| {
      IndicesFromComplete(list, range, i + 1);
      IndicesFromSound(list, range, i + 1);
      if !(list[i].x - range.lower < 0.0) && !Contains(range, list[i].x) {
        forall k | i < k < |list|
          ensures !Contains(range, list[k].x)
        {
          assert list[i].x < list[k].x;
        }
      }
    }
  }
}
