/** ReferenceContainer: the reference spectra of one library, indexed by precursor mass in a tree map
    of buckets, with the set of identifiers already held. */
module ReferenceContainers {
  import opened Wrappers
  import opened Constants
  import opened SortedSeqs
  import opened ReferenceSpectra

  /** The precursor mass of spectra without one. */
  const NO_PRECURSOR: real := 0.0

  /** One entry of the tree map: a precursor mass and the spectra filed under it, in insertion order. */
  datatype Bucket = Bucket(mass: real, list: seq<ReferenceSpectrum>)

  /** The keys of the tree map, in its order. */
  function Masses(b: seq<Bucket>): (r: seq<real>)
    ensures |r| == |b| && forall i :: 0 <= i < |b| ==> r[i] == b[i].mass
  {
    seq(|b|, i requires 0 <= i < |b| => b[i].mass)
  }

  /** All spectra of the map, bucket after bucket. */
  function Flatten(b: seq<Bucket>): seq<ReferenceSpectrum>
  {
    if |b| == 0 then [] else Flatten(b[..|b| - 1]) + b[|b| - 1].list
  }

  /** The spectra of the buckets whose mass lies in [lo, hi], in ascending mass: the values of
      subMap(lo, true, hi, true). */
  function Collect(b: seq<Bucket>, lo: real, hi: real): seq<ReferenceSpectrum>
  {
    if |b| == 0 then []
    else Collect(b[..|b| - 1], lo, hi) + (if lo <= b[|b| - 1].mass <= hi then b[|b| - 1].list else [])
  }

  /** TreeMap.get: the bucket of a mass, empty when there is none. */
  function Lookup(b: seq<Bucket>, mass: real): seq<ReferenceSpectrum>
  {
    Collect(b, mass, mass)
  }

  /** Every spectrum sits in the bucket of its own precursor mass. */
  predicate Filed(b: seq<Bucket>)
  {
    forall i, k :: 0 <= i < |b| && 0 <= k < |b[i].list| ==> b[i].list[k].precursorMass == b[i].mass
  }

  /** The identifiers of a list of spectra. */
  function Ids(s: seq<ReferenceSpectrum>): set<string>
  {
    set x | x in s :: x.id
  }

  /** The tree-map put of a new spectrum: appended to the bucket of its precursor mass, or a new
      bucket placed in mass order. */
  function Insert(b: seq<Bucket>, s: ReferenceSpectrum): seq<Bucket>
  {
    if |b| == 0 then [Bucket(s.precursorMass, [s])]
    else if b[0].mass == s.precursorMass then [b[0].(list := b[0].list + [s])] + b[1..]
    else if s.precursorMass < b[0].mass then [Bucket(s.precursorMass, [s])] + b
    else [b[0]] + Insert(b[1..], s)
  }

  lemma {:induction false} FlattenCons(x: Bucket, b: seq<Bucket>)
    ensures Flatten([x] + b) == x.list + Flatten(b)
    decreases |b|
  {
    if |b| > 0 {
      assert ([x] + b)[..|b|] == [x] + b[..|b| - 1];
      FlattenCons(x, b[..|b| - 1]);
    }
  }

  lemma {:induction false} CollectCons(x: Bucket, b: seq<Bucket>, lo: real, hi: real)
    ensures Collect([x] + b, lo, hi) == (if lo <= x.mass <= hi then x.list else []) + Collect(b, lo, hi)
    decreases |b|
  {
    if |b| > 0 {
      assert ([x] + b)[..|b|] == [x] + b[..|b| - 1];
      CollectCons(x, b[..|b| - 1], lo, hi);
    }
  }

  /** Insert adds the spectrum's mass to the keys. */
  lemma {:induction false} InsertMasses(b: seq<Bucket>, s: ReferenceSpectrum)
    ensures forall m :: m in Masses(Insert(b, s)) <==> m in Masses(b) || m == s.precursorMass
  {
    if |b| == 0 {
      assert Masses(Insert(b, s)) == [s.precursorMass];
    } else if b[0].mass == s.precursorMass {
      assert Masses(Insert(b, s)) == Masses(b);
    } else if s.precursorMass < b[0].mass {
      assert Masses(Insert(b, s)) == [s.precursorMass] + Masses(b);
    } else {
      InsertMasses(b[1..], s);
      assert Masses(Insert(b, s)) == [b[0].mass] + Masses(Insert(b[1..], s));
      assert Masses(b) == [b[0].mass] + Masses(b[1..]);
    }
  }

  /** Insert keeps every spectrum in its own bucket. */
  lemma {:induction false} InsertFiled(b: seq<Bucket>, s: ReferenceSpectrum)
    requires Filed(b)
    ensures Filed(Insert(b, s))
  {
    if |b| > 0 && b[0].mass != s.precursorMass && s.precursorMass > b[0].mass {
      var t := b[1..];
      assert Filed(t) by {
        forall i, k | 0 <= i < |t| && 0 <= k < |t[i].list|
          ensures t[i].list[k].precursorMass == t[i].mass
        {
          assert t[i] == b[i + 1];
        }
      }
      InsertFiled(t, s);
      var r := Insert(b, s);
      forall i, k | 0 <= i < |r| && 0 <= k < |r[i].list|
        ensures r[i].list[k].precursorMass == r[i].mass
      {
        if i > 0 {
          assert r[i] == Insert(t, s)[i - 1];
        }
      }
    } else if |b| > 0 && b[0].mass == s.precursorMass {
      var r := Insert(b, s);
      forall i, k | 0 <= i < |r| && 0 <= k < |r[i].list|
        ensures r[i].list[k].precursorMass == r[i].mass
      {
        if i == 0 && k < |b[0].list| {
          assert r[0].list[k] == b[0].list[k];
        }
      }
    } else if |b| > 0 {
      var r := Insert(b, s);
      forall i, k | 0 <= i < |r| && 0 <= k < |r[i].list|
        ensures r[i].list[k].precursorMass == r[i].mass
      {
        if i > 0 {
          assert r[i] == b[i - 1];
        }
      }
    }
  }

  /** Insert keeps the keys strictly ascending. */
  lemma {:induction false} InsertSorted(b: seq<Bucket>, s: ReferenceSpectrum)
    requires StrictlySorted(Masses(b))
    ensures StrictlySorted(Masses(Insert(b, s)))
  {
    if |b| > 0 && b[0].mass != s.precursorMass && s.precursorMass > b[0].mass {
      var t := b[1..];
      assert Masses(t) == Masses(b)[1..];
      InsertSorted(t, s);
      InsertMasses(t, s);
      var rt := Masses(Insert(t, s));
      assert Masses(Insert(b, s)) == [b[0].mass] + rt;
      forall x | x in rt
        ensures b[0].mass < x
      {
        if x in Masses(t) {
          var k :| 0 <= k < |Masses(t)| && Masses(t)[k] == x;
          assert Masses(b)[k + 1] == x;
        }
      }
      ConsStrictlySorted(b[0].mass, rt);
    } else if |b| > 0 && s.precursorMass < b[0].mass {
      assert Masses(Insert(b, s)) == [s.precursorMass] + Masses(b);
      forall x | x in Masses(b)
        ensures s.precursorMass < x
      {
        var k :| 0 <= k < |Masses(b)| && Masses(b)[k] == x;
        assert Masses(b)[0] <= x;
      }
      ConsStrictlySorted(s.precursorMass, Masses(b));
    } else if |b| > 0 {
      assert Masses(Insert(b, s)) == Masses(b);
    }
  }

  /** A key below every key of an ascending list can go in front of it. */
  lemma ConsStrictlySorted(x: real, r: seq<real>)
    requires StrictlySorted(r) && forall y :: y in r ==> x < y
    ensures StrictlySorted([x] + r)
  {
    var c := [x] + r;
    forall i, j | 0 <= i < j < |c|
      ensures c[i] < c[j]
    {
      assert c[j] == r[j - 1] && r[j - 1] in r;
      if i > 0 { assert c[i] == r[i - 1]; }
    }
  }

  /** Insert adds exactly the new spectrum to the map's contents. */
  lemma {:induction false} InsertContents(b: seq<Bucket>, s: ReferenceSpectrum)
    ensures multiset(Flatten(Insert(b, s))) == multiset(Flatten(b)) + multiset{s}
  {
    if |b| == 0 {
      assert Flatten([Bucket(s.precursorMass, [s])]) == Flatten([]) + [s];
    } else if b[0].mass == s.precursorMass {
      FlattenCons(b[0].(list := b[0].list + [s]), b[1..]);
      FlattenCons(b[0], b[1..]);
      assert [b[0]] + b[1..] == b;
    } else if s.precursorMass < b[0].mass {
      FlattenCons(Bucket(s.precursorMass, [s]), b);
    } else {
      InsertContents(b[1..], s);
      FlattenCons(b[0], Insert(b[1..], s));
      FlattenCons(b[0], b[1..]);
      assert [b[0]] + b[1..] == b;
    }
  }

  /** Insert appends the spectrum to the bucket of its mass and leaves every other bucket as it was. */
  lemma {:induction false} InsertLookup(b: seq<Bucket>, s: ReferenceSpectrum, m: real)
    requires StrictlySorted(Masses(b))
    ensures Lookup(Insert(b, s), m) == Lookup(b, m) + (if m == s.precursorMass then [s] else [])
  {
    if |b| == 0 {
      assert Insert(b, s) == [] + [Bucket(s.precursorMass, [s])];
    } else if b[0].mass == s.precursorMass {
      InsertLookupHere(b, s, m);
    } else if s.precursorMass < b[0].mass {
      InsertLookupBefore(b, s, m);
    } else {
      assert Masses(b[1..]) == Masses(b)[1..];
      InsertLookup(b[1..], s, m);
      InsertLookupAfter(b, s, m);
    }
  }

  /** The spectrum's mass lies above the first key: the first bucket is kept in front. */
  lemma {:induction false} InsertLookupAfter(b: seq<Bucket>, s: ReferenceSpectrum, m: real)
    requires |b| > 0 && s.precursorMass > b[0].mass
    requires Lookup(Insert(b[1..], s), m) == Lookup(b[1..], m) + (if m == s.precursorMass then [s] else [])
    ensures Lookup(Insert(b, s), m) == Lookup(b, m) + (if m == s.precursorMass then [s] else [])
  {
    var t := b[1..];
    var head := if m <= b[0].mass <= m then b[0].list else [];
    var extra := if m == s.precursorMass then [s] else [];
    assert [b[0]] + t == b;
    assert Insert(b, s) == [b[0]] + Insert(t, s);
    CollectCons(b[0], t, m, m);
    CollectCons(b[0], Insert(t, s), m, m);
    calc {
      Lookup(Insert(b, s), m);
      head + Lookup(Insert(t, s), m);
      head + (Lookup(t, m) + extra);
      (head + Lookup(t, m)) + extra;
      Lookup(b, m) + extra;
    }
  }

  /** The first key already is the spectrum's mass. */
  lemma InsertLookupHere(b: seq<Bucket>, s: ReferenceSpectrum, m: real)
    requires StrictlySorted(Masses(b)) && |b| > 0 && b[0].mass == s.precursorMass
    ensures Lookup(Insert(b, s), m) == Lookup(b, m) + (if m == s.precursorMass then [s] else [])
  {
    assert [b[0]] + b[1..] == b;
    CollectCons(b[0], b[1..], m, m);
    CollectCons(b[0].(list := b[0].list + [s]), b[1..], m, m);
    if m == s.precursorMass {
      assert forall i :: 0 <= i < |b[1..]| ==> b[1..][i].mass > m by {
        forall i | 0 <= i < |b[1..]|
          ensures b[1..][i].mass > m
        {
          assert b[1..][i].mass == Masses(b)[i + 1] > Masses(b)[0];
        }
      }
      CollectOutside(b[1..], m, m);
    }
  }

  /** The spectrum's mass lies below every key. */
  lemma InsertLookupBefore(b: seq<Bucket>, s: ReferenceSpectrum, m: real)
    requires StrictlySorted(Masses(b)) && |b| > 0 && s.precursorMass < b[0].mass
    ensures Lookup(Insert(b, s), m) == Lookup(b, m) + (if m == s.precursorMass then [s] else [])
  {
    CollectCons(Bucket(s.precursorMass, [s]), b, m, m);
    if m == s.precursorMass {
      assert forall i :: 0 <= i < |b| ==> b[i].mass > m by {
        forall i | 0 <= i < |b|
          ensures b[i].mass > m
        {
          assert i > 0 ==> Masses(b)[i] > Masses(b)[0];
        }
      }
      CollectOutside(b, m, m);
    }
  }

  /** No bucket in the window, nothing collected. */
  lemma {:induction false} CollectOutside(b: seq<Bucket>, lo: real, hi: real)
    requires forall i :: 0 <= i < |b| ==> !(lo <= b[i].mass <= hi)
    ensures Collect(b, lo, hi) == []
  {
    if |b| > 0 {
      CollectOutside(b[..|b| - 1], lo, hi);
    }
  }

  /** Everything collected for [lo, hi] is a stored spectrum of a precursor mass in [lo, hi], and every
      such stored spectrum is collected. */
  lemma {:induction false} CollectMembers(b: seq<Bucket>, lo: real, hi: real, x: ReferenceSpectrum)
    requires Filed(b)
    ensures x in Collect(b, lo, hi) <==> x in Flatten(b) && lo <= x.precursorMass <= hi
  {
    if |b| > 0 {
      var n := |b| - 1;
      var p := b[..n];
      var last := b[n];
      FiledPrefix(b, n);
      CollectMembers(p, lo, hi, x);
      assert Collect(b, lo, hi) == Collect(p, lo, hi) + (if lo <= last.mass <= hi then last.list else []);
      assert Flatten(b) == Flatten(p) + last.list;
      if x in last.list {
        var k :| 0 <= k < |last.list| && last.list[k] == x;
        assert x.precursorMass == last.mass;
      }
    }
  }

  /** A prefix of filed buckets is filed. */
  lemma FiledPrefix(b: seq<Bucket>, n: nat)
    requires Filed(b) && n <= |b|
    ensures Filed(b[..n])
  {
    var p := b[..n];
    forall i, k | 0 <= i < n && 0 <= k < |p[i].list|
      ensures p[i].list[k].precursorMass == p[i].mass
    {
      assert p[i] == b[i];
    }
  }

  /** Spectra in ascending precursor mass. */
  predicate Ascending(r: seq<ReferenceSpectrum>)
  {
    forall i, j :: 0 <= i < j < |r| ==> r[i].precursorMass <= r[j].precursorMass
  }

  /** The collected spectra come in ascending precursor mass, none above the last key. */
  lemma {:induction false} CollectAscending(b: seq<Bucket>, lo: real, hi: real)
    requires StrictlySorted(Masses(b)) && Filed(b)
    ensures Ascending(Collect(b, lo, hi))
    ensures forall x :: x in Collect(b, lo, hi) ==> |b| > 0 && x.precursorMass <= b[|b| - 1].mass
  {
    if |b| > 0 {
      var n := |b| - 1;
      var p := b[..n];
      assert Masses(p) == Masses(b)[..n];
      FiledPrefix(b, n);
      CollectAscending(p, lo, hi);
      var c := Collect(p, lo, hi);
      var t := if lo <= b[n].mass <= hi then b[n].list else [];
      assert forall x :: x in t ==> x.precursorMass == b[n].mass by {
        forall x | x in t
          ensures x.precursorMass == b[n].mass
        {
          var k :| 0 <= k < |t| && t[k] == x;
        }
      }
      assert forall x :: x in c ==> x.precursorMass < b[n].mass by {
        forall x | x in c
          ensures x.precursorMass < b[n].mass
        {
          assert n > 0 && x.precursorMass <= p[n - 1].mass;
          assert Masses(b)[n - 1] < Masses(b)[n];
        }
      }
      AscendingConcat(c, t, b[n].mass);
    }
  }

  /** Two ascending runs, the first below m and the second at m, make one ascending run. */
  lemma AscendingConcat(c: seq<ReferenceSpectrum>, t: seq<ReferenceSpectrum>, m: real)
    requires Ascending(c) && (forall x :: x in c ==> x.precursorMass < m)
    requires forall x :: x in t ==> x.precursorMass == m
    ensures Ascending(c + t) && forall x :: x in c + t ==> x.precursorMass <= m
  {
    var r := c + t;
    forall i, j | 0 <= i < j < |r|
      ensures r[i].precursorMass <= r[j].precursorMass
    {
      if j < |c| {
        assert r[i] == c[i] && r[j] == c[j];
      } else if i >= |c| {
        assert r[i] == t[i - |c|] && r[j] == t[j - |c|];
        assert r[i] in t && r[j] in t;
      } else {
        assert r[i] == c[i] && r[j] == t[j - |c|];
        assert r[i] in c && r[j] in t;
      }
    }
  }

  /** The mass tolerance of a query: p * ppm / 10^6. */
  function Tolerance(precursorMass: real, ppm: real): real
  {
    precursorMass * ppm / PPM
  }

  /** getSpectra as written: the sub-map runs from delta - p rather than p - delta. */
  function SpectraAsWritten(b: seq<Bucket>, precursorMass: real, ppm: real): Result<seq<ReferenceSpectrum>>
  {
    var delta := Tolerance(precursorMass, ppm);
    var lo, hi := delta - precursorMass, precursorMass + delta;
    if lo > hi then Failure("IllegalArgumentException") else Success(Collect(b, lo, hi))
  }

  /** getSpectra as intended: the spectra of precursor mass within p * ppm / 10^6 of p; TreeMap.subMap
      refuses a window whose lower end lies above its upper end. */
  function Spectra(b: seq<Bucket>, precursorMass: real, ppm: real): Result<seq<ReferenceSpectrum>>
  {
    var delta := Tolerance(precursorMass, ppm);
    var lo, hi := precursorMass - delta, precursorMass + delta;
    if lo > hi then Failure("IllegalArgumentException") else Success(Collect(b, lo, hi))
  }

  /** As written, a query at 500 with 10 ppm returns a spectrum of precursor mass 100, which the intended
      window of 500 +- 0.005 excludes. */
  lemma SpectraAsWrittenReachesLow(s: ReferenceSpectrum)
    requires s.precursorMass == 100.0
    ensures SpectraAsWritten([Bucket(100.0, [s])], 500.0, 10.0) == Success([s])
    ensures Spectra([Bucket(100.0, [s])], 500.0, 10.0) == Success([])
  {
    var b := [Bucket(100.0, [s])];
    assert b[..0] == [];
    assert 500.0 * 10.0 / PPM == 0.005;
    assert Collect(b, -499.995, 500.005) == [s];
    assert Collect(b, 499.995, 500.005) == [];
  }

  /** The intended window is refused exactly for a negative tolerance product. */
  lemma SpectraRefused(b: seq<Bucket>, precursorMass: real, ppm: real)
    ensures Spectra(b, precursorMass, ppm).Failure? <==> precursorMass * ppm < 0.0
  {
    var delta := Tolerance(precursorMass, ppm);
    assert delta < 0.0 <==> precursorMass * ppm < 0.0;
  }

  /** The intended window holds exactly the stored spectra within the tolerance, in ascending mass. */
  lemma SpectraWindow(b: seq<Bucket>, precursorMass: real, ppm: real, x: ReferenceSpectrum)
    requires StrictlySorted(Masses(b)) && Filed(b)
    ensures Spectra(b, precursorMass, ppm).Success? ==>
      var r := Spectra(b, precursorMass, ppm).value;
      var delta := Tolerance(precursorMass, ppm);
      (x in r <==> x in Flatten(b) && precursorMass - delta <= x.precursorMass <= precursorMass + delta) &&
      Ascending(r)
  {
    var delta := Tolerance(precursorMass, ppm);
    CollectMembers(b, precursorMass - delta, precursorMass + delta, x);
    CollectAscending(b, precursorMass - delta, precursorMass + delta);
  }

  class ReferenceContainer {
    const id: string
    const source: string
    const msn: MSN
    var spectraIds: set<string>
    var spectra: seq<Bucket>

    /** The container invariant: keys ascending, every spectrum in its own bucket, the id set being the
        ids of the stored spectra, each stored once. */
    ghost predicate Valid()
      reads this
    {
      StrictlySorted(Masses(spectra)) && Filed(spectra) &&
      spectraIds == Ids(Flatten(spectra)) && |spectraIds| == |Flatten(spectra)|
    }

    constructor (id: string, source: string, msn: MSN)
      ensures Valid() && this.id == id && this.source == source && this.msn == msn
      ensures spectraIds == {} && spectra == []
    {
      this.id, this.source, this.msn := id, source, msn;
      spectraIds, spectra := {}, [];
    }

    /** addSpectrum: a spectrum whose id is held already is refused and nothing changes; otherwise its
        id is recorded and it is appended to the bucket of its precursor mass. */
    method AddSpectrum(spectrum: ReferenceSpectrum)
      requires Valid()
      modifies this
      ensures Valid()
      ensures spectrum.id in old(spectraIds) ==> spectraIds == old(spectraIds) && spectra == old(spectra)
      ensures spectrum.id !in old(spectraIds) ==>
        spectraIds == old(spectraIds) + {spectrum.id} && spectra == Insert(old(spectra), spectrum)
    {
      if spectrum.id in spectraIds {
        return;
      }
      InsertSorted(spectra, spectrum);
      InsertFiled(spectra, spectrum);
      InsertContents(spectra, spectrum);
      var f, g := Flatten(spectra), Flatten(Insert(spectra, spectrum));
      assert forall x :: x in g <==> x in f || x == spectrum by {
        forall x
          ensures x in g <==> x in f || x == spectrum
        {
          assert x in g <==> x in multiset(g);
          assert x in f <==> x in multiset(f);
        }
      }
      assert Ids(g) == Ids(f) + {spectrum.id};
      assert |g| == |multiset(g)| == |f| + 1;
      spectraIds := spectraIds + {spectrum.id};
      spectra := Insert(spectra, spectrum);
    }

    /** getSpectra: the spectra in the tolerance window around the precursor mass, bucket by bucket in
        ascending mass. */
    method GetSpectra(precursorMass: real, ppm: real) returns (r: Result<seq<ReferenceSpectrum>>)
      ensures r == Spectra(spectra, precursorMass, ppm)
    {
      var delta := Tolerance(precursorMass, ppm);
      var lo, hi := precursorMass - delta, precursorMass + delta;
      if lo > hi {
        return Failure("IllegalArgumentException");
      }
      var matching: seq<ReferenceSpectrum> := [];
      var i := 0;
      while i < |spectra|
        invariant 0 <= i <= |spectra|
        invariant matching == Collect(spectra[..i], lo, hi)
      {
        assert spectra[..i + 1][..i] == spectra[..i];
        if lo <= spectra[i].mass <= hi {
          matching := matching + spectra[i].list;
        }
        i := i + 1;
      }
      assert spectra[..i] == spectra;
      return Success(matching);
    }

    /** removeAll: both the map and the id set are emptied, and the call reports success. */
    method RemoveAll() returns (ok: bool)
      modifies this
      ensures ok && Valid() && spectra == [] && spectraIds == {}
    {
      spectra, spectraIds := [], {};
      return true;
    }

    /** size: the number of held identifiers, which is the number of stored spectra. */
    function Size(): (r: int)
      reads this
      ensures Valid() ==> r == |Flatten(spectra)|
    {
      |spectraIds|
    }
  }
}
