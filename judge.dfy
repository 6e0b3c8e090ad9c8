/** IdentityRelationJudge: the judge that rewards compound spectra for their adduct and neutral-loss
    relationships by adding to the score of every candidate entity, and removes no spectrum. */
module Judges {
  import opened Compounds

  /** The score for a spectrum by the number of its adduct annotations: none 0, one 50, more 100. */
  function AdductScore(adducts: nat): (score: int)
    ensures adducts == 0 <==> score == 0
    ensures adducts == 1 <==> score == 50
    ensures adducts >= 2 <==> score == 100
  {
    if adducts == 0 then 0 else if adducts < 2 then 50 else 100
  }

  /** The spectrum's score, from the size of its adduct multimap. */
  function SpectrumScore(cs: CompoundSpectrum): (score: int)
    reads cs
    ensures 0 <= score <= 100
  {
    AdductScore(|cs.indexToAdduct|)
  }

  /** What the judge uses of a spectrum: its score and its candidate entities. */
  datatype Listing = Listing(score: int, compounds: seq<CompoundEntity>)

  function Listings(spectra: seq<CompoundSpectrum>): (r: seq<Listing>)
    reads spectra
    ensures |r| == |spectra| &&
      forall i :: 0 <= i < |spectra| ==> r[i] == Listing(SpectrumScore(spectra[i]), spectra[i].compounds)
  {
    seq(|spectra|, i reads spectra requires 0 <= i < |spectra| =>
      Listing(SpectrumScore(spectra[i]), spectra[i].compounds))
  }

  /** The candidate entities of the listings. */
  function EntitiesOf(ls: seq<Listing>): set<CompoundEntity>
  {
    if |ls| == 0 then {}
    else
      var c := ls[|ls| - 1].compounds;
      EntitiesOf(ls[..|ls| - 1]) + set k | 0 <= k < |c| :: c[k]
  }

  /** Every listed entity is among the candidates. */
  lemma {:induction false} EntitiesOfContains(ls: seq<Listing>, i: nat)
    requires i < |ls|
    ensures (set k | 0 <= k < |ls[i].compounds| :: ls[i].compounds[k]) <= EntitiesOf(ls)
  {
    if i < |ls| - 1 {
      EntitiesOfContains(ls[..|ls| - 1], i);
    }
  }

  /** What the judge adds to an entity: each spectrum's score once for each time the entity is one of
      its candidates. */
  function Bonus(ls: seq<Listing>, e: CompoundEntity): int
  {
    if |ls| == 0 then 0
    else Bonus(ls[..|ls| - 1], e) + ls[|ls| - 1].score * multiset(ls[|ls| - 1].compounds)[e]
  }

  /** How often an entity is a candidate, over all the listings. */
  function TotalOccurrences(ls: seq<Listing>, e: CompoundEntity): nat
  {
    if |ls| == 0 then 0
    else TotalOccurrences(ls[..|ls| - 1], e) + multiset(ls[|ls| - 1].compounds)[e]
  }

  /** An entity that no spectrum lists gains nothing. */
  lemma {:induction false} BonusOfStranger(ls: seq<Listing>, e: CompoundEntity)
    requires forall i :: 0 <= i < |ls| ==> e !in ls[i].compounds
    ensures Bonus(ls, e) == 0
  {
    if |ls| > 0 {
      var n := |ls| - 1;
      assert multiset(ls[n].compounds)[e] == 0;
      BonusOfStranger(ls[..n], e);
    }
  }

  /** An entity listed once in exactly one spectrum gains that spectrum's score. */
  lemma {:induction false} BonusOfSingle(ls: seq<Listing>, e: CompoundEntity, k: nat)
    requires k < |ls| && multiset(ls[k].compounds)[e] == 1
    requires forall i :: 0 <= i < |ls| && i != k ==> e !in ls[i].compounds
    ensures Bonus(ls, e) == ls[k].score
  {
    var n := |ls| - 1;
    if k == n {
      BonusOfStranger(ls[..n], e);
    } else {
      assert multiset(ls[n].compounds)[e] == 0;
      BonusOfSingle(ls[..n], e, k);
    }
  }

  /** With judge scores, the bonus is never negative and at most 100 for each listing of the entity:
      an entity listed once gains at most 100. */
  lemma {:induction false} BonusBounds(ls: seq<Listing>, e: CompoundEntity)
    requires forall i :: 0 <= i < |ls| ==> 0 <= ls[i].score <= 100
    ensures 0 <= Bonus(ls, e) <= 100 * TotalOccurrences(ls, e)
  {
    if |ls| > 0 {
      var n := |ls| - 1;
      BonusBounds(ls[..n], e);
      ScaledCount(ls[n].score, multiset(ls[n].compounds)[e]);
    }
  }

  /** A score of at most 100 counted c times is at most 100 c. */
  lemma ScaledCount(score: int, c: nat)
    requires 0 <= score <= 100
    ensures 0 <= score * c <= 100 * c
  {
  }

  /** One more listing of an entity adds the score once more. */
  lemma ListingStep(s: seq<CompoundEntity>, j: nat, x: CompoundEntity, score: int)
    requires j < |s|
    ensures score * multiset(s[..j + 1])[x] == score * multiset(s[..j])[x] + (if x == s[j] then score else 0)
  {
    var c := multiset(s[..j])[x];
    assert s[..j + 1] == s[..j] + [s[j]];
    if x == s[j] {
      assert multiset(s[..j + 1])[x] == c + 1;
      assert score * (c + 1) == score * c + score;
    } else {
      assert multiset(s[..j + 1])[x] == c;
    }
  }

  /** The prefix one longer adds the next element. */
  lemma SnocPrefix<T>(s: seq<T>, n: nat)
    requires n < |s|
    ensures s[..n + 1] == s[..n] + [s[n]]
  {
  }

  /** One more spectrum adds its score once per listing of the entity. */
  lemma BonusStep(ls: seq<Listing>, n: nat, e: CompoundEntity)
    requires n < |ls|
    ensures Bonus(ls[..n + 1], e) == Bonus(ls[..n], e) + ls[n].score * multiset(ls[n].compounds)[e]
    ensures e !in ls[n].compounds ==> multiset(ls[n].compounds)[e] == 0
  {
    assert ls[..n + 1][..n] == ls[..n];
  }

  class IdentityRelationJudge {
    /** The number of spectra the judge removed. */
    var removed: int

    constructor ()
      ensures removed == 0
    {
      removed := 0;
    }

    /** judge: each spectrum's entities get its adduct score added, and every spectrum is kept, in
        order. */
    method Judge(compoundSpectra: seq<CompoundSpectrum>) returns (filteredCS: seq<CompoundSpectrum>)
      modifies EntitiesOf(Listings(compoundSpectra))
      ensures filteredCS == compoundSpectra && removed == old(removed)
      ensures Listings(compoundSpectra) == old(Listings(compoundSpectra))
      ensures forall i, j :: 0 <= i < |compoundSpectra| && 0 <= j < |compoundSpectra[i].compounds| ==>
        compoundSpectra[i].compounds[j].score ==
        old(compoundSpectra[i].compounds[j].score) + Bonus(Listings(compoundSpectra), compoundSpectra[i].compounds[j])
    {
      ghost var ls := Listings(compoundSpectra);
      filteredCS := [];
      var n := 0;
      while n < |compoundSpectra|
        invariant 0 <= n <= |compoundSpectra|
        invariant filteredCS == compoundSpectra[..n]
        invariant Listings(compoundSpectra) == ls
        invariant forall i, j :: 0 <= i < |ls| && 0 <= j < |ls[i].compounds| ==>
          ls[i].compounds[j].score == old(compoundSpectra[i].compounds[j].score) + Bonus(ls[..n], ls[i].compounds[j])
      {
        var cs := compoundSpectra[n];
        ScoreSpectrum(compoundSpectra, ls, n);
        forall i, j | 0 <= i < |ls| && 0 <= j < |ls[i].compounds|
          ensures ls[i].compounds[j].score ==
            old(compoundSpectra[i].compounds[j].score) + Bonus(ls[..n + 1], ls[i].compounds[j])
        {
          BonusStep(ls, n, ls[i].compounds[j]);
        }
        SnocPrefix(compoundSpectra, n);
        filteredCS := filteredCS + [cs];
        n := n + 1;
      }
      assert compoundSpectra[..n] == compoundSpectra;
      assert ls[..n] == ls;
    }

    /** One pass of judge: the entities of the n-th spectrum get its score added, once per listing. */
    static method ScoreSpectrum(compoundSpectra: seq<CompoundSpectrum>, ghost ls: seq<Listing>, n: nat)
      requires ls == Listings(compoundSpectra) && n < |ls|
      modifies EntitiesOf(ls)
      ensures Listings(compoundSpectra) == ls
      ensures forall i, j :: 0 <= i < |ls| && 0 <= j < |ls[i].compounds| ==>
        ls[i].compounds[j].score ==
        old(ls[i].compounds[j].score) + ls[n].score * multiset(ls[n].compounds)[ls[i].compounds[j]]
    {
      var cs := compoundSpectra[n];
      var score := AdductScore(|cs.indexToAdduct|);
      EntitiesOfContains(ls, n);
      AddToAll(cs.compounds, score);
      forall i, j | 0 <= i < |ls| && 0 <= j < |ls[i].compounds|
        ensures ls[i].compounds[j].score ==
          old(ls[i].compounds[j].score) + ls[n].score * multiset(ls[n].compounds)[ls[i].compounds[j]]
      {
        var e := ls[i].compounds[j];
        if e in cs.compounds {
          var k :| 0 <= k < |cs.compounds| && cs.compounds[k] == e;
        } else {
          assert multiset(cs.compounds)[e] == 0;
        }
      }
    }

    /** The inner loop of judge: every entity of the list gets the score added, once per listing. */
    static method AddToAll(compounds: seq<CompoundEntity>, score: int)
      modifies set k | 0 <= k < |compounds| :: compounds[k]
      ensures forall k :: 0 <= k < |compounds| ==>
        compounds[k].score == old(compounds[k].score) + score * multiset(compounds)[compounds[k]]
    {
      var j := 0;
      while j < |compounds|
        invariant 0 <= j <= |compounds|
        invariant forall k :: 0 <= k < |compounds| ==>
          compounds[k].score == old(compounds[k].score) + score * multiset(compounds[..j])[compounds[k]]
      {
        var ce := compounds[j];
        assert compounds[..j + 1] == compounds[..j] + [ce];
        label before:
        ce.AddScore(score);
        forall k | 0 <= k < |compounds|
          ensures compounds[k].score == old(compounds[k].score) + score * multiset(compounds[..j + 1])[compounds[k]]
        {
          ListingStep(compounds, j, compounds[k], score);
          if compounds[k] != ce {
            assert compounds[k].score == old@before(compounds[k].score);
          }
        }
        j := j + 1;
      }
      assert compounds[..j] == compounds;
    }

    /** removed: the judge removes nothing, so this stays at its initial 0. */
    function Removed(): int
      reads this
    {
      removed
    }
  }
}
