/** CompoundSpectrum and CompoundEntity: a set of related signals believed to come from one compound,
    and the candidate chemical entities for it, each with a score the judges add to. */
module Compounds {
  import opened Wrappers
  import opened Points

  /** An adduct annotation, by name. */
  datatype Adduct = Adduct(name: string)

  /** An isotope annotation, by name. */
  datatype Isotope = Isotope(name: string)

  class CompoundEntity {
    const id: int
    const name: string
    var score: int

    constructor (id: int, score: int, name: string)
      ensures this.id == id && this.score == score && this.name == name
    {
      this.id, this.score, this.name := id, score, name;
    }

    /** addScore: the score grows by the given amount. */
    method AddScore(score: int)
      modifies this
      ensures this.score == old(this.score) + score
    {
      this.score := this.score + score;
    }
  }

  /** An entity with the score it had when the list was copied for sorting. */
  datatype Ranked = Ranked(score: int, entity: CompoundEntity)

  /** The copy of a list of entities with their current scores. */
  function Rank(s: seq<CompoundEntity>): (r: seq<Ranked>)
    reads s
    ensures |r| == |s| && forall i :: 0 <= i < |s| ==> r[i] == Ranked(s[i].score, s[i])
  {
    seq(|s|, i reads s requires 0 <= i < |s| => Ranked(s[i].score, s[i]))
  }

  /** The entities of a ranked list, in its order. */
  function Entities(r: seq<Ranked>): (s: seq<CompoundEntity>)
    ensures |s| == |r| && forall i :: 0 <= i < |r| ==> s[i] == r[i].entity
  {
    seq(|r|, i requires 0 <= i < |r| => r[i].entity)
  }

  /** Scores in descending order, as the comparator of getBest orders them. */
  predicate Descending(r: seq<Ranked>)
  {
    forall i, j :: 0 <= i < j < |r| ==> r[i].score >= r[j].score
  }

  /** The entries of one score, in order. */
  function OfScore(r: seq<Ranked>, v: int): seq<Ranked>
  {
    if |r| == 0 then [] else OfScore(r[..|r| - 1], v) + (if r[|r| - 1].score == v then [r[|r| - 1]] else [])
  }

  /** A later entry goes behind every entry of a score at least its own. */
  function InsertRanked(x: Ranked, t: seq<Ranked>): (r: seq<Ranked>)
    ensures |r| == |t| + 1
  {
    if |t| == 0 then [x]
    else if t[|t| - 1].score >= x.score then t + [x]
    else InsertRanked(x, t[..|t| - 1]) + [t[|t| - 1]]
  }

  /** Collections.sort with the descending-score comparator, a stable sort. */
  function SortByScore(s: seq<Ranked>): (r: seq<Ranked>)
    ensures |r| == |s|
  {
    if |s| == 0 then [] else InsertRanked(s[|s| - 1], SortByScore(s[..|s| - 1]))
  }

  lemma {:induction false} OfScoreAppend(a: seq<Ranked>, b: seq<Ranked>, v: int)
    ensures OfScore(a + b, v) == OfScore(a, v) + OfScore(b, v)
    decreases |b|
  {
    if |b| == 0 {
      assert a + b == a;
    } else {
      assert (a + b)[..|a + b| - 1] == a + b[..|b| - 1];
      OfScoreAppend(a, b[..|b| - 1], v);
    }
  }

  /** Inserting adds the entry to the contents. */
  lemma {:induction false} InsertRankedContents(x: Ranked, t: seq<Ranked>)
    ensures multiset(InsertRanked(x, t)) == multiset(t) + multiset{x}
    decreases |t|
  {
    if |t| > 0 && t[|t| - 1].score < x.score {
      var n := |t| - 1;
      InsertRankedContents(x, t[..n]);
      assert t == t[..n] + [t[n]];
    }
  }

  /** Inserting keeps the order descending. */
  lemma {:induction false} InsertRankedDescending(x: Ranked, t: seq<Ranked>)
    requires Descending(t)
    ensures Descending(InsertRanked(x, t))
    decreases |t|
  {
    if |t| > 0 {
      var n := |t| - 1;
      var last := t[n];
      if last.score >= x.score {
        SnocDescending(t, x);
      } else {
        var p := t[..n];
        assert Descending(p);
        InsertRankedDescending(x, p);
        InsertRankedAbove(x, p, last.score);
        SnocDescending(InsertRanked(x, p), last);
      }
    }
  }

  /** An entry no higher than every entry of a descending list can go at its end. */
  lemma SnocDescending(q: seq<Ranked>, y: Ranked)
    requires Descending(q) && (|q| > 0 ==> q[|q| - 1].score >= y.score)
    ensures Descending(q + [y])
  {
    var r := q + [y];
    forall i, j | 0 <= i < j < |r|
      ensures r[i].score >= r[j].score
    {
      if j == |q| {
        assert q[i].score >= q[|q| - 1].score;
      }
    }
  }

  /** When x and every entry of t score at least v, so does every entry of the insertion. */
  lemma {:induction false} InsertRankedAbove(x: Ranked, t: seq<Ranked>, v: int)
    requires x.score >= v && forall i :: 0 <= i < |t| ==> t[i].score >= v
    ensures forall i :: 0 <= i < |InsertRanked(x, t)| ==> InsertRanked(x, t)[i].score >= v
    decreases |t|
  {
    if |t| > 0 && t[|t| - 1].score < x.score {
      InsertRankedAbove(x, t[..|t| - 1], v);
    }
  }

  /** Inserting places the entry behind the entries of its own score. */
  lemma {:induction false} InsertRankedOfScore(x: Ranked, t: seq<Ranked>, v: int)
    requires Descending(t)
    ensures OfScore(InsertRanked(x, t), v) == OfScore(t, v) + (if x.score == v then [x] else [])
    decreases |t|
  {
    var single := OfScore([x], v);
    assert single == OfScore([], v) + (if x.score == v then [x] else []);
    if |t| > 0 {
      var n := |t| - 1;
      var last := t[n];
      if last.score >= x.score {
        OfScoreAppend(t, [x], v);
      } else {
        var p := t[..n];
        assert t == p + [last];
        assert Descending(p);
        InsertRankedOfScore(x, p, v);
        OfScoreAppend(InsertRanked(x, p), [last], v);
        OfScoreAppend(p, [last], v);
        assert OfScore([last], v) == OfScore([], v) + (if last.score == v then [last] else []);
      }
    }
  }

  /** The sort orders by descending score, keeps the contents, and keeps the order of the entries of
      each score: it is the stable sort. */
  lemma SortByScoreProperties(s: seq<Ranked>, v: int)
    ensures var r := SortByScore(s);
      Descending(r) && multiset(r) == multiset(s) && OfScore(r, v) == OfScore(s, v)
  {
    SortByScoreDescending(s);
    SortByScoreContents(s);
    SortByScoreStable(s, v);
  }

  lemma {:induction false} SortByScoreDescending(s: seq<Ranked>)
    ensures Descending(SortByScore(s))
  {
    if |s| > 0 {
      var n := |s| - 1;
      SortByScoreDescending(s[..n]);
      InsertRankedDescending(s[n], SortByScore(s[..n]));
    }
  }

  lemma {:induction false} SortByScoreContents(s: seq<Ranked>)
    ensures multiset(SortByScore(s)) == multiset(s)
  {
    if |s| > 0 {
      var n := |s| - 1;
      SortByScoreContents(s[..n]);
      InsertRankedContents(s[n], SortByScore(s[..n]));
      assert s == s[..n] + [s[n]];
    }
  }

  lemma {:induction false} SortByScoreStable(s: seq<Ranked>, v: int)
    ensures OfScore(SortByScore(s), v) == OfScore(s, v)
  {
    if |s| > 0 {
      var n := |s| - 1;
      SortByScoreStable(s[..n], v);
      SortByScoreDescending(s[..n]);
      InsertRankedOfScore(s[n], SortByScore(s[..n]), v);
    }
  }

  /** The number of entries getBest returns: number when below the size, the size otherwise. */
  function BestCount(number: int, size: nat): int
  {
    if number < size then number else size
  }

  class CompoundSpectrum {
    const id: int
    var compounds: seq<CompoundEntity>
    var majorPeak: int
    var peakList: seq<XYPoint>
    var indexToIsotope: map<int, Isotope>
    /** A multimap without repeated pairs: an index with each of its adducts once. */
    var indexToAdduct: set<(int, Adduct)>
    var retentionTime: real
    var peakList2: seq<XYPoint>

    constructor (id: int)
      ensures this.id == id && compounds == [] && majorPeak == 0 && peakList == [] && peakList2 == []
      ensures indexToIsotope == map[] && indexToAdduct == {} && retentionTime == 0.0
    {
      this.id := id;
      compounds, majorPeak, peakList, peakList2 := [], 0, [], [];
      indexToIsotope, indexToAdduct, retentionTime := map[], {}, 0.0;
    }

    /** addCompound: the entity is appended to the candidates. */
    method AddCompound(compound: CompoundEntity)
      modifies this
      ensures compounds == old(compounds) + [compound]
    {
      compounds := compounds + [compound];
    }

    /** getBest: a copy of the candidates stably sorted by descending score, cut to its first
        min(number, size) entries; a negative number is refused by subList. */
    function GetBest(number: int): (r: Result<seq<CompoundEntity>>)
      reads this, compounds
      ensures r.Failure? <==> number < 0
      ensures r.Success? ==> |r.value| == BestCount(number, |compounds|)
      ensures r.Success? ==> forall i, j :: 0 <= i < j < |r.value| ==> r.value[i].score >= r.value[j].score
      ensures r.Success? ==> forall e :: e in r.value ==> e in compounds
      ensures r.Success? ==> r.value == Entities(SortByScore(Rank(compounds))[..BestCount(number, |compounds|)])
    {
      var k := BestCount(number, |compounds|);
      if k < 0 then Failure("IllegalArgumentException")
      else
        var sorted := SortByScore(Rank(compounds));
        SortByScoreProperties(Rank(compounds), 0);
        BestPrefix(Rank(compounds), sorted, k);
        Success(Entities(sorted[..k]))
    }
  }

  /** A prefix of the sorted copy holds entities of the list, in descending current score. */
  lemma BestPrefix(ranked: seq<Ranked>, sorted: seq<Ranked>, k: int)
    requires Descending(sorted) && multiset(sorted) == multiset(ranked) && 0 <= k <= |sorted|
    requires forall x :: x in ranked ==> x.score == x.entity.score
    ensures var e := Entities(sorted[..k]);
      (forall i, j :: 0 <= i < j < |e| ==> e[i].score >= e[j].score) &&
      forall y :: y in e ==> exists x :: x in ranked && x.entity == y
  {
    var e := Entities(sorted[..k]);
    forall i | 0 <= i < k
      ensures sorted[i] in ranked && e[i].score == sorted[i].score
    {
      assert sorted[i] in multiset(sorted);
    }
    forall y | y in e
      ensures exists x :: x in ranked && x.entity == y
    {
      var i :| 0 <= i < |e| && e[i] == y;
      assert sorted[i] in ranked;
    }
  }
}
