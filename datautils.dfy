/** DataUtils: the closest key of a sorted map or set to a query, chosen between
    the query's floor and its higher neighbour. */
module DataUtils {
  import opened Wrappers
  import opened Numerics
  import opened SortedSeqs

  /** What the trace lookups read of a Trace: its m/z anchor (the sort key) and its m/z average. */
  datatype TraceKey = TraceKey(anchor: real, avg: real)

  function Anchors(ts: seq<TraceKey>): (r: seq<real>)
    ensures |r| == |ts| && forall i :: 0 <= i < |ts| ==> r[i] == ts[i].anchor
  {
    seq(|ts|, i requires 0 <= i < |ts| => ts[i].anchor)
  }

  /** The private getClosest shared by the numeric lookups: floor wins unless higher is strictly
      nearer; a missing side never wins (its distance is Double.MAX_VALUE). */
  function ChooseCloser(s: seq<real>, floor: Option<nat>, higher: Option<nat>, q: real): (r: Option<real>)
    requires floor.Some? ==> floor.value < |s|
    requires higher.Some? ==> higher.value < |s|
    ensures r.None? <==> floor.None? && higher.None?
    ensures floor.Some? && higher.None? ==> r == Some(s[floor.value])
    ensures floor.None? && higher.Some? ==> r == Some(s[higher.value])
    ensures floor.Some? && higher.Some? ==>
              r == if q - s[floor.value] <= s[higher.value] - q then Some(s[floor.value]) else Some(s[higher.value])
  {
    match (floor, higher)
    case (None, None) => None
    case (Some(f), None) => Some(s[f])
    case (None, Some(h)) => Some(s[h])
    case (Some(f), Some(h)) => if q - s[f] <= s[h] - q then Some(s[f]) else Some(s[h])
  }

  /** getClosestKey(T value, TreeMap): the nearer of floorKey and higherKey; None for an empty map. */
  function ClosestKey(keys: seq<real>, q: real): (r: Option<real>)
    ensures r.None? <==> |keys| == 0
    ensures r.Some? ==> r.value in keys
  {
    if |keys| == 0 then None
    else
      FloorOrHigherExists(keys, q);
      ChooseCloser(keys, FloorIndex(keys, q), HigherIndex(keys, q), q)
  }

  /** getClosestValue(T value, TreeSet): a value already in the set is returned as it is;
      otherwise the nearer of floor and higher. */
  function ClosestValue(values: seq<real>, q: real): (r: Option<real>)
    ensures r.None? <==> |values| == 0
    ensures r.Some? ==> r.value in values
  {
    if |values| == 0 then None
    else if q in values then Some(values[FloorIndex(values, q).value])
    else
      FloorOrHigherExists(values, q);
      ChooseCloser(values, FloorIndex(values, q), HigherIndex(values, q), q)
  }

  /** The numeric lookups return a member of the collection that no other member is nearer to
      the query than, None exactly when the collection is empty, and the query itself when it is present. */
  lemma {:induction false} ClosestKeyIsNearest(keys: seq<real>, q: real)
    requires StrictlySorted(keys)
    ensures ClosestKey(keys, q).None? <==> |keys| == 0
    ensures ClosestKey(keys, q).Some? ==> ClosestKey(keys, q).value in keys
    ensures ClosestKey(keys, q).Some? ==>
              forall e :: e in keys ==> Abs(q - ClosestKey(keys, q).value) <= Abs(q - e)
    ensures q in keys ==> ClosestKey(keys, q) == Some(q)
  {
    if |keys| > 0 {
      FloorOrHigherExists(keys, q);
      FloorHigherAdjacent(keys, q);
      var f, h := FloorIndex(keys, q), HigherIndex(keys, q);
      var r := ClosestKey(keys, q).value;
      forall e | e in keys
        ensures Abs(q - r) <= Abs(q - e)
      {
        var j :| 0 <= j < |keys| && keys[j] == e;
        if f.Some? && j <= f.value {
          assert keys[j] <= keys[f.value] by {
            if j < f.value { assert keys[j] < keys[f.value]; }
          }
        }
        if h.Some? && j >= h.value {
          assert keys[j] >= keys[h.value] by {
            if j > h.value { assert keys[j] > keys[h.value]; }
          }
        }
      }
      if q in keys {
        var j :| 0 <= j < |keys| && keys[j] == q;
        assert f.Some? && f.value == j;
      }
    }
  }

  /** On a set the two numeric lookups agree: the early return for a present value changes nothing. */
  lemma ClosestValueIsClosestKey(values: seq<real>, q: real)
    requires StrictlySorted(values)
    ensures ClosestValue(values, q) == ClosestKey(values, q)
  {
    if |values| > 0 && q in values {
      ClosestKeyIsNearest(values, q);
      var j :| 0 <= j < |values| && values[j] == q;
      assert FloorIndex(values, q).value == j;
    }
  }

  /** getClosestKey/getClosestValue for traces: floor and higher by anchor, and the distance from the
      query anchor to each candidate's average, signed as the source computes it. */
  function ClosestTrace(ts: seq<TraceKey>, query: TraceKey): (r: Option<TraceKey>)
    ensures r.Some? ==> r.value in ts
  {
    if |ts| == 0 then None
    else
      var keys := Anchors(ts);
      match (FloorIndex(keys, query.anchor), HigherIndex(keys, query.anchor))
      case (None, None) => None
      case (Some(f), None) => Some(ts[f])
      case (None, Some(h)) => Some(ts[h])
      case (Some(f), Some(h)) =>
        if query.anchor - ts[f].avg <= ts[h].avg - query.anchor then Some(ts[f]) else Some(ts[h])
  }

  /** The trace lookup returns the floor or the higher trace of the query's anchor, is None exactly for
      an empty collection, and prefers the floor whenever its average is no farther by the signed rule. */
  lemma ClosestTraceIsNeighbour(ts: seq<TraceKey>, query: TraceKey)
    requires StrictlySorted(Anchors(ts))
    ensures ClosestTrace(ts, query).None? <==> |ts| == 0
    ensures ClosestTrace(ts, query).Some? ==>
              exists i :: 0 <= i < |ts| && ts[i] == ClosestTrace(ts, query).value &&
                (FloorIndex(Anchors(ts), query.anchor) == Some(i) || HigherIndex(Anchors(ts), query.anchor) == Some(i))
    ensures ClosestTrace(ts, query).Some? && ClosestTrace(ts, query).value.anchor > query.anchor ==>
              forall j :: 0 <= j < |ts| && ts[j].anchor <= query.anchor ==>
                query.anchor - ts[FloorIndex(Anchors(ts), query.anchor).value].avg
                  > ClosestTrace(ts, query).value.avg - query.anchor
  {
    FloorOrHigherExists(Anchors(ts), query.anchor);
    FloorHigherAdjacent(Anchors(ts), query.anchor);
  }
}
