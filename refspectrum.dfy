/** ReferenceSpectrum: a library spectrum with its compound and experimental metadata, and the lookup of
    the library peak that matches a measured signal. */
module ReferenceSpectra {
  import opened Wrappers
  import opened Numerics
  import opened Constants
  import opened Points
  import opened SortedSeqs

  /** The fields of a reference spectrum; the peak list is a tree set ordered by m/z, listed here in
      ascending m/z. */
  datatype ReferenceSpectrum = ReferenceSpectrum(
    id: string, title: string, source: string, name: string, notation: string, mass: real,
    formula: string, instrument: string, ionMode: IonMode, precursorType: string, precursorMass: real,
    collisionEnergy: int, mzIntList: seq<XYPoint>, basePeak: XYPoint)

  /** The peak list is a set under the m/z comparison: ascending and no m/z twice. */
  predicate PeakSet(peaks: seq<XYPoint>)
  {
    StrictlySorted(Xs(peaks))
  }

  /** contains: some peak compares equal to the signal, that is has its m/z. */
  predicate Contains(peaks: seq<XYPoint>, signal: XYPoint)
  {
    exists i :: 0 <= i < |peaks| && peaks[i].x == signal.x
  }

  /** The distance from the signal to its floor or higher neighbour, Double.MAX_VALUE for a missing one. */
  function Delta(d: Option<real>): real
  {
    if d.None? then DOUBLE_MAX else d.value
  }

  /** The tolerance window of getMatchingPeak: [x - delta, x + delta) with delta = x * ppm / 10^6. */
  predicate InWindow(mz: real, x: real, ppm: real)
  {
    var delta := x * ppm / PPM;
    mz >= x - delta && mz < x + delta
  }

  /** The outcome of choosing between the floor and higher neighbours of a key that is not present:
      no neighbour at all, the nearer side being a missing one, or the position picked. */
  datatype Choice = NoNeighbour | MissingPick | Picked(i: nat)

  /** The nearer of floor and higher, the floor on a tie, a missing side counting as Double.MAX_VALUE away. */
  function Choose(xs: seq<real>, q: real): (r: Choice)
    ensures r.Picked? ==> r.i < |xs|
  {
    var floor := FloorIndex(xs, q);
    var higher := HigherIndex(xs, q);
    var deltaFloor := Delta(if floor.Some? then Some(q - xs[floor.value]) else None);
    var deltaCeiling := Delta(if higher.Some? then Some(xs[higher.value] - q) else None);
    if floor.None? && higher.None? then NoNeighbour
    else
      var pick := if deltaFloor <= deltaCeiling then floor else higher;
      if pick.None? then MissingPick else Picked(pick.value)
  }

  /** getMatchingPeak: the peak of the signal's m/z if there is one; otherwise the chosen neighbour,
      kept only if it lies in [x - delta, x + delta) with delta = x * ppm / 10^6. No peaks gives None;
      choosing a missing neighbour fails with a null dereference. */
  function MatchingPeak(peaks: seq<XYPoint>, signal: XYPoint, ppm: real): (r: Result<Option<XYPoint>>)
    ensures |peaks| == 0 ==> r == Success(None)
    ensures r.Success? && r.value.Some? ==> r.value.value in peaks
    ensures r.Success? && r.value.Some? ==> r.value.value.x == signal.x || InWindow(r.value.value.x, signal.x, ppm)
  {
    var xs := Xs(peaks);
    var floor := FloorIndex(xs, signal.x);
    if floor.Some? && xs[floor.value] == signal.x then Success(Some(peaks[floor.value]))
    else
      match Choose(xs, signal.x)
      case NoNeighbour => Success(None)
      case MissingPick => Failure("NullPointerException")
      case Picked(i) =>
        var m := peaks[i];
        if InWindow(m.x, signal.x, ppm) then Success(Some(m)) else Success(None)
  }

  /** In a peak set, the signal is contained exactly when its floor has its m/z. */
  lemma ContainsIsFloor(peaks: seq<XYPoint>, signal: XYPoint)
    requires PeakSet(peaks)
    ensures Contains(peaks, signal) <==>
      FloorIndex(Xs(peaks), signal.x).Some? && peaks[FloorIndex(Xs(peaks), signal.x).value].x == signal.x
  {
    var xs := Xs(peaks);
    if Contains(peaks, signal) {
      var i :| 0 <= i < |peaks| && peaks[i].x == signal.x;
      assert xs[i] == signal.x;
    }
  }

  /** A contained signal returns the peak of its m/z, whatever the tolerance. */
  lemma MatchContained(peaks: seq<XYPoint>, signal: XYPoint, ppm: real)
    requires PeakSet(peaks) && Contains(peaks, signal)
    ensures MatchingPeak(peaks, signal, ppm).Success? && MatchingPeak(peaks, signal, ppm).value.Some?
    ensures var m := MatchingPeak(peaks, signal, ppm).value.value; m in peaks && m.x == signal.x
  {
    ContainsIsFloor(peaks, signal);
  }

  /** An empty peak list matches nothing, and a non-empty one always has a neighbour to choose. */
  lemma ChooseEmpty(xs: seq<real>, q: real)
    ensures Choose(xs, q).NoNeighbour? <==> |xs| == 0
  {
    FloorOrHigherExists(xs, q);
  }

  /** The choice fails only when one neighbour is missing and the other lies at least
      Double.MAX_VALUE away (more than it, for a missing higher). */
  lemma ChooseMissing(xs: seq<real>, q: real)
    requires StrictlySorted(xs)
    ensures Choose(xs, q).MissingPick? <==>
      (|xs| > 0 && FloorIndex(xs, q).None? && xs[0] - q >= DOUBLE_MAX) ||
      (|xs| > 0 && HigherIndex(xs, q).None? && q - xs[|xs| - 1] > DOUBLE_MAX)
  {
    FloorHigherAdjacent(xs, q);
  }

  /** The chosen neighbour is nearest to q of all keys; a key equally near is above it. */
  lemma ChooseNearest(xs: seq<real>, q: real, j: nat)
    requires StrictlySorted(xs) && Choose(xs, q).Picked? && j < |xs|
    ensures var i := Choose(xs, q).i;
      Abs(xs[i] - q) <= Abs(xs[j] - q) && (Abs(xs[i] - q) == Abs(xs[j] - q) && i != j ==> xs[i] < xs[j])
  {
    FloorHigherAdjacent(xs, q);
    var floor := FloorIndex(xs, q);
    var higher := HigherIndex(xs, q);
    if xs[j] <= q {
      assert floor.Some? && j <= floor.value;
      assert j < floor.value ==> xs[j] < xs[floor.value];
    } else {
      assert higher.Some? && higher.value <= j;
      assert higher.value < j ==> xs[higher.value] < xs[j];
    }
  }

  /** A returned peak is in the list, lies in the tolerance window, and no peak is nearer to the signal;
      a different peak equally near lies above it, so of two equally near neighbours the lower one
      is returned. */
  lemma MatchNearest(peaks: seq<XYPoint>, signal: XYPoint, ppm: real, q: XYPoint)
    requires PeakSet(peaks) && q in peaks
    requires MatchingPeak(peaks, signal, ppm).Success? && MatchingPeak(peaks, signal, ppm).value.Some?
    ensures var m := MatchingPeak(peaks, signal, ppm).value.value;
      m in peaks && (m.x != signal.x ==> InWindow(m.x, signal.x, ppm)) &&
      Abs(m.x - signal.x) <= Abs(q.x - signal.x) &&
      (Abs(m.x - signal.x) == Abs(q.x - signal.x) && m != q ==> m.x < q.x)
  {
    var xs := Xs(peaks);
    var k :| 0 <= k < |peaks| && peaks[k] == q;
    assert xs[k] == q.x;
    var floor := FloorIndex(xs, signal.x);
    if !(floor.Some? && xs[floor.value] == signal.x) {
      ChooseNearest(xs, signal.x, k);
    } else if peaks[floor.value] != q {
      assert k != floor.value;
    }
  }

  /** Away from an exact hit, the chosen neighbour is returned exactly when it lies in the window. */
  lemma MatchWindow(peaks: seq<XYPoint>, signal: XYPoint, ppm: real)
    requires !Contains(peaks, signal) && Choose(Xs(peaks), signal.x).Picked?
    ensures var m := peaks[Choose(Xs(peaks), signal.x).i];
      MatchingPeak(peaks, signal, ppm) == if InWindow(m.x, signal.x, ppm) then Success(Some(m)) else Success(None)
  {
    var floor := FloorIndex(Xs(peaks), signal.x);
    if floor.Some? && Xs(peaks)[floor.value] == signal.x {
      assert false;
    }
  }

  /** getMatchingPeak of a reference spectrum. */
  function GetMatchingPeak(spectrum: ReferenceSpectrum, signal: XYPoint, ppm: real): (r: Result<Option<XYPoint>>)
    ensures |spectrum.mzIntList| == 0 ==> r == Success(None)
    ensures r.Success? && r.value.Some? ==> r.value.value in spectrum.mzIntList
  {
    MatchingPeak(spectrum.mzIntList, signal, ppm)
  }
}
