/** The TreeMap/TreeSet navigation the source relies on, over the keys of a
    sorted collection listed in ascending order. */
module SortedSeqs {
  import opened Wrappers

  predicate StrictlySorted(s: seq<real>)
  {
    forall i, j :: 0 <= i < j < |s| ==> s[i] < s[j]
  }

  /** floor: the position of the greatest key that is <= q. */
  function FloorIndex(s: seq<real>, q: real): (r: Option<nat>)
    ensures r.Some? ==> r.value < |s| && s[r.value] <= q && forall j :: r.value < j < |s| ==> s[j] > q
    ensures r.None? ==> forall j :: 0 <= j < |s| ==> s[j] > q
  {
    if |s| == 0 then None
    else if s[|s| - 1] <= q then Some(|s| - 1)
    else FloorIndex(s[..|s| - 1], q)
  }

  /** higher: the position of the least key that is > q. */
  function HigherIndex(s: seq<real>, q: real): (r: Option<nat>)
    ensures r.Some? ==> r.value < |s| && s[r.value] > q && forall j :: 0 <= j < r.value ==> s[j] <= q
    ensures r.None? ==> forall j :: 0 <= j < |s| ==> s[j] <= q
  {
    if |s| == 0 then None
    else if s[0] > q then Some(0)
    else match HigherIndex(s[1..], q)
      case None => None
      case Some(i) => Some(i + 1)
  }

  /** In a sorted collection floor bounds everything before it and higher everything after it,
      and higher is the position just after floor. */
  lemma FloorHigherAdjacent(s: seq<real>, q: real)
    requires StrictlySorted(s)
    ensures FloorIndex(s, q).Some? ==> forall j :: 0 <= j <= FloorIndex(s, q).value ==> s[j] <= q
    ensures HigherIndex(s, q).Some? ==> forall j :: HigherIndex(s, q).value <= j < |s| ==> s[j] > q
    ensures FloorIndex(s, q).None? <==> (HigherIndex(s, q) == if |s| == 0 then None else Some(0))
    ensures FloorIndex(s, q).Some? ==>
              HigherIndex(s, q) == (if FloorIndex(s, q).value + 1 < |s| then Some(FloorIndex(s, q).value + 1) else None)
  {
  }

  /** An empty collection has neither floor nor higher; a non-empty one has at least one. */
  lemma FloorOrHigherExists(s: seq<real>, q: real)
    ensures |s| == 0 ==> FloorIndex(s, q).None? && HigherIndex(s, q).None?
    ensures |s| > 0 ==> FloorIndex(s, q).Some? || HigherIndex(s, q).Some?
  {
    if |s| > 0 && FloorIndex(s, q).None? {
      assert s[0] > q;
    }
  }
}
