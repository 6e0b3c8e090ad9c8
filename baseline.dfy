/** BaselineSubtraction: a morphological top-hat filter (erosion followed by dilation) computed with the
    van Herk / Gil-Werman block algorithm over an edge-padded copy of a feature's intensities. */
module Baseline {
  import opened Points

  /** The intensity every corrected point is lifted by. */
  const BASE_INTENSITY: real := 10.0

  /** Erosion keeps running minima, dilation running maxima. */
  datatype Extremum = Minimum | Maximum

  /** The comparison the filters write: `(a > b) ? b : a` for erosion, `(a < b) ? b : a` for dilation. */
  function Pick(op: Extremum, a: real, b: real): real
  {
    match op
    case Minimum => if a > b then b else a
    case Maximum => if a < b then b else a
  }

  /** r is no worse than x: not above it for a minimum, not below it for a maximum. */
  predicate Beats(op: Extremum, r: real, x: real)
  {
    match op
    case Minimum => r <= x
    case Maximum => r >= x
  }

  /** The extremum of a non-empty sequence, folded from the left with Pick. */
  function Ext(op: Extremum, s: seq<real>): real
    requires |s| > 0
  {
    if |s| == 1 then s[0] else Pick(op, Ext(op, s[..|s| - 1]), s[|s| - 1])
  }

  /** The fold is the extremum: an element of the sequence that beats every element. */
  lemma {:induction false} ExtIsExtreme(op: Extremum, s: seq<real>)
    requires |s| > 0
    ensures Ext(op, s) in s
    ensures forall x :: x in s ==> Beats(op, Ext(op, s), x)
  {
    if |s| > 1 {
      var init := s[..|s| - 1];
      ExtIsExtreme(op, init);
      assert s == init + [s[|s| - 1]];
      forall x | x in s
        ensures Beats(op, Ext(op, s), x)
      {
        if x in init {
          assert Beats(op, Ext(op, init), x);
        }
      }
    }
  }

  /** An element that beats every element is the extremum. */
  lemma ExtUnique(op: Extremum, s: seq<real>, r: real)
    requires r in s && forall x :: x in s ==> Beats(op, r, x)
    ensures Ext(op, s) == r
  {
    ExtIsExtreme(op, s);
  }

  /** Two sequences with the same elements have the same extremum. */
  lemma ExtSameElements(op: Extremum, s1: seq<real>, s2: seq<real>)
    requires |s1| > 0 && |s2| > 0
    requires forall x :: x in s1 <==> x in s2
    ensures Ext(op, s1) == Ext(op, s2)
  {
    ExtIsExtreme(op, s1);
    ExtUnique(op, s2, Ext(op, s1));
  }

  /** The extremum of a concatenation is the Pick of the extrema of the parts, in either order. */
  lemma ExtSplit(op: Extremum, a: seq<real>, b: seq<real>)
    requires |a| > 0 && |b| > 0
    ensures Ext(op, a + b) == Pick(op, Ext(op, a), Ext(op, b)) == Pick(op, Ext(op, b), Ext(op, a))
  {
    ExtIsExtreme(op, a);
    ExtIsExtreme(op, b);
    var r := Pick(op, Ext(op, a), Ext(op, b));
    forall x | x in a + b
      ensures Beats(op, r, x)
    {
      if x in a { assert Beats(op, Ext(op, a), x); } else { assert Beats(op, Ext(op, b), x); }
    }
    ExtUnique(op, a + b, r);
  }

  /** A run of equal values has that value as its extremum. */
  lemma ExtConstant(op: Extremum, s: seq<real>, v: real)
    requires |s| > 0 && forall i :: 0 <= i < |s| ==> s[i] == v
    ensures Ext(op, s) == v
  {
    assert s[0] == v;
    forall x | x in s
      ensures Beats(op, v, x)
    {
      var i :| 0 <= i < |s| && s[i] == x;
    }
    ExtUnique(op, s, v);
  }

  function MaxI(a: int, b: int): int { if a < b then b else a }
  function MinI(a: int, b: int): int { if a < b then a else b }

  /** The structuring element around point o: y over [o - q, o + q], cut at both ends of the feature. */
  function Window(y: seq<real>, q: nat, o: nat): (w: seq<real>)
    requires o < |y|
    ensures |w| > 0
  {
    y[MaxI(0, o - q) .. MinI(|y|, o + q + 1)]
  }

  /** The position of y a padded position t copies: t - q, held at the first and last point outside y. */
  function Clamp(v: int, n: nat): int
    requires n > 0
  {
    if v < 0 then 0 else if v >= n then n - 1 else v
  }

  /** The padded intensity vector of length fn: y shifted right by q, its first value repeated on the
      left and its last value repeated up to fn. */
  function Padded(y: seq<real>, q: nat, fn: nat): (p: seq<real>)
    requires |y| > 0
    ensures |p| == fn
  {
    seq(fn, t requires 0 <= t < fn => y[Clamp(t - q, |y|)])
  }

  /** The window of 2q + 1 padded values starting at o holds exactly the values of y's window around o. */
  lemma PaddedWindow(op: Extremum, y: seq<real>, q: nat, fn: nat, o: nat)
    requires o < |y| && o + 2 * q + 1 <= fn
    ensures Ext(op, Padded(y, q, fn)[o .. o + 2 * q + 1]) == Ext(op, Window(y, q, o))
  {
    var pad := Padded(y, q, fn);
    var p := pad[o .. o + 2 * q + 1];
    var w := Window(y, q, o);
    var lo := MaxI(0, o - q);
    forall x | x in p
      ensures x in w
    {
      var t :| 0 <= t < |p| && p[t] == x;
      assert p[t] == y[Clamp(o + t - q, |y|)];
      assert w[Clamp(o + t - q, |y|) - lo] == x;
    }
    forall x | x in w
      ensures x in p
    {
      var u :| 0 <= u < |w| && w[u] == x;
      var t := lo + u + q;
      assert lo + u < MinI(|y|, o + q + 1);
      assert w[u] == y[lo + u];
      assert Clamp(t - q, |y|) == lo + u;
      assert o <= t < o + 2 * q + 1 <= fn;
      assert pad[t] == y[Clamp(t - q, |y|)];
      assert p[t - o] == pad[t];
    }
    ExtSameElements(op, p, w);
  }

  /** Multiplication by a positive block length keeps order, both ways. */
  lemma MulMono(a: int, b: int, k: int)
    requires a <= b && k >= 0
    ensures a * k <= b * k
  {
    assert (b - a) * k >= 0;
  }

  lemma MulCancel(a: int, b: int, k: int)
    requires k > 0 && a * k < b * k
    ensures a < b
  {
    if a >= b { MulMono(b, a, k); }
  }


  /** A one-element sequence is its own extremum; a Pick of a value with itself is that value. */
  lemma ExtSingle(op: Extremum, x: real)
    ensures Ext(op, [x]) == x && Pick(op, x, x) == x
  {
  }

  /** The right-to-left step: putting x in front of s picks between s's extremum and x. */
  lemma ExtCons(op: Extremum, x: real, s: seq<real>)
    requires |s| > 0
    ensures Ext(op, [x] + s) == Pick(op, Ext(op, s), x)
  {
    ExtSplit(op, [x], s);
  }

  /** The start of block b: block 0 starts at q, right after the left padding, and each block is k long. */
  function Start(q: int, k: nat, b: nat): int
  {
    if b == 0 then q else Start(q, k, b - 1) + k
  }

  lemma {:induction false} StartIsLinear(q: int, k: nat, b: nat)
    ensures Start(q, k, b) == q + b * k
  {
    if b > 0 { StartIsLinear(q, k, b - 1); }
  }

  /** Later blocks start at least one block length later. */
  lemma {:induction false} StartMono(q: int, k: nat, a: nat, b: nat)
    requires a < b
    ensures Start(q, k, a) + k <= Start(q, k, b)
  {
    if a + 1 < b { StartMono(q, k, a, b - 1); }
  }

  /** Every padded position from q on lies in exactly one block. */
  lemma {:induction false} FindBlock(q: int, k: nat, t: int) returns (b: nat)
    requires k > 0 && t >= q
    ensures Start(q, k, b) <= t < Start(q, k, b) + k
    decreases t - q
  {
    if t < q + k {
      b := 0;
    } else {
      b := FindBlock(q, k, t - k);
      b := b + 1;
    }
  }

  /** A block that starts within the data ends within the padded vector. */
  lemma BlockEnds(n: nat, q: nat, k: nat, fn: int, m: nat)
    requires k == 2 * q + 1 && fn == n + 2 * q + (k - n % k) && Start(q, k, m) < n + q
    ensures Start(q, k, m) + k <= fn
  {
    StartIsLinear(q, k, m);
    var d := n / k;
    assert n == d * k + n % k;
    assert m * k < (d + 1) * k;
    MulCancel(m, d + 1, k);
    MulMono(m, d, k);
    assert m * k + k <= d * k + k;
  }

  /** The block [s, s + k) of p holds its running extrema: g[t] the extremum of the block up to t and
      h[t] that of the block from t to its end. */
  ghost predicate BlockDone(op: Extremum, p: seq<real>, g: seq<real>, h: seq<real>, s: int, k: nat)
  {
    0 <= s && s + k <= |p| == |g| == |h| &&
    forall t :: s <= t < s + k ==> g[t] == Ext(op, p[s .. t + 1]) && h[t] == Ext(op, p[t .. s + k])
  }

  /** Blocks 0 .. m - 1 are done. */
  ghost predicate BlocksDone(op: Extremum, p: seq<real>, g: seq<real>, h: seq<real>, q: int, k: nat, m: nat)
  {
    m == 0 || (BlocksDone(op, p, g, h, q, k, m - 1) && BlockDone(op, p, g, h, Start(q, k, m - 1), k))
  }

  lemma {:induction false} BlocksGet(op: Extremum, p: seq<real>, g: seq<real>, h: seq<real>, q: int, k: nat, m: nat, b: nat)
    requires BlocksDone(op, p, g, h, q, k, m) && b < m
    ensures BlockDone(op, p, g, h, Start(q, k, b), k)
  {
    if b < m - 1 { BlocksGet(op, p, g, h, q, k, m - 1, b); }
  }

  /** Writing at or after the start of block m leaves the finished blocks 0 .. m - 1 finished. */
  lemma {:induction false} BlocksFrame(op: Extremum, p: seq<real>, g0: seq<real>, h0: seq<real>, g: seq<real>, h: seq<real>,
                                      q: int, k: nat, m: nat)
    requires BlocksDone(op, p, g0, h0, q, k, m) && |g| == |g0| && |h| == |h0|
    requires forall t :: 0 <= t < Start(q, k, m) && t < |g| && t < |h| ==> g[t] == g0[t] && h[t] == h0[t]
    ensures BlocksDone(op, p, g, h, q, k, m)
  {
    if m > 0 {
      StartMono(q, k, m - 1, m);
      forall t | 0 <= t < Start(q, k, m - 1) && t < |g| && t < |h|
        ensures g[t] == g0[t] && h[t] == h0[t]
      {
      }
      BlocksFrame(op, p, g0, h0, g, h, q, k, m - 1);
    }
  }

  /** The copies of the filter: the padded intensities, gs holding the last value on the right padding
      and hs the first value on the left padding. */
  method PadArrays(y: array<real>, q: int, n: int, fn: int) returns (ys: array<real>, gs: array<real>, hs: array<real>)
    requires q >= 1 && n >= 1 && y.Length == n && fn >= n + 2 * q + 1
    ensures fresh(ys) && fresh(gs) && fresh(hs) && ys != gs && ys != hs && gs != hs
    ensures ys.Length == fn && gs.Length == fn && hs.Length == fn
    ensures ys[..] == Padded(y[..], q, fn)
    ensures forall t :: 0 <= t <= q ==> ys[t] == y[0]
    ensures forall t :: q + n - 1 <= t < fn ==> ys[t] == y[n - 1]
    ensures forall t :: 0 <= t < q ==> hs[t] == y[0]
    ensures forall t :: q + n <= t < fn ==> gs[t] == y[n - 1]
  {
    ys := new real[fn];
    gs := new real[fn];
    hs := new real[fn];
    forall j | 0 <= j < n {
      ys[q + j] := y[j];
    }
    var i := 0;
    while i < q
      invariant 0 <= i <= q
      invariant forall t :: 0 <= t < i ==> ys[t] == y[0] && hs[t] == y[0]
      invariant forall j :: 0 <= j < n ==> ys[q + j] == y[j]
    {
      ys[i] := ys[q];
      hs[i] := ys[q];
      i := i + 1;
    }
    var ri := q + n - 1;
    i := q + n;
    while i < fn
      invariant q + n <= i <= fn
      invariant forall t :: 0 <= t < q ==> ys[t] == y[0] && hs[t] == y[0]
      invariant forall j :: 0 <= j < n ==> ys[q + j] == y[j]
      invariant forall t :: q + n <= t < i ==> ys[t] == y[n - 1] && gs[t] == y[n - 1]
    {
      ys[i] := ys[ri];
      gs[i] := ys[ri];
      i := i + 1;
    }
    assert ys[q + 0] == y[0] && ys[q + (n - 1)] == y[n - 1];
    forall t | 0 <= t < fn
      ensures ys[t] == Padded(y[..], q, fn)[t]
    {
      assert Padded(y[..], q, fn)[t] == y[Clamp(t - q, n)];
      if t < q {
        assert Clamp(t - q, n) == 0;
      } else if t < q + n {
        assert ys[q + (t - q)] == y[t - q];
      } else {
        assert Clamp(t - q, n) == n - 1;
      }
    }
  }

  /** One block [i, i + k) of the padded vector p: gs runs the extremum left to right, hs right to left. */
  method Block(ys: array<real>, gs: array<real>, hs: array<real>, i: int, k: int, op: Extremum, ghost p: seq<real>)
    requires ys != gs && ys != hs && gs != hs && gs.Length == ys.Length && hs.Length == ys.Length
    requires ys[..] == p && 0 <= i && 1 <= k && i + k <= ys.Length
    modifies gs, hs
    ensures BlockDone(op, p, gs[..], hs[..], i, k)
    ensures forall t :: 0 <= t < gs.Length && !(i <= t < i + k) ==> gs[t] == old(gs[t]) && hs[t] == old(hs[t])
  {
    var r := i + k - 1;
    gs[i] := ys[i];
    hs[r] := ys[r];
    assert p[i .. i + 1] == [p[i]] && p[r .. r + 1] == [p[r]];
    var j, gi, hi := 1, i + 1, r - 1;
    while j < k
      invariant 1 <= j <= k && gi == i + j && hi == r - j
      invariant ForwardUpTo(op, p, gs[..], i, gi) && BackwardFrom(op, p, hs[..], hi, r)
      invariant forall t :: 0 <= t < gs.Length && !(i <= t < gi) ==> gs[t] == old(gs[t])
      invariant forall t :: 0 <= t < hs.Length && !(hi < t <= r) ==> hs[t] == old(hs[t])
    {
      ghost var g, h := gs[..], hs[..];
      var gv := Pick(op, gs[gi - 1], ys[gi]);
      var hv := Pick(op, hs[hi + 1], ys[hi]);
      gs[gi] := gv;
      hs[hi] := hv;
      ForwardStep(op, p, g, i, gi, gv);
      BackwardStep(op, p, h, hi, r, hv);
      j, gi, hi := j + 1, gi + 1, hi - 1;
    }
  }

  /** g holds the running extremum of p from i up to each t < e. */
  ghost predicate ForwardUpTo(op: Extremum, p: seq<real>, g: seq<real>, i: int, e: int)
  {
    0 <= i < e <= |p| && e <= |g| && forall t :: i <= t < e ==> g[t] == Ext(op, p[i .. t + 1])
  }

  /** h holds the extremum of p from each t > b up to and including r. */
  ghost predicate BackwardFrom(op: Extremum, p: seq<real>, h: seq<real>, b: int, r: int)
  {
    -1 <= b < r < |p| && r < |h| && forall t :: b < t <= r ==> h[t] == Ext(op, p[t .. r + 1])
  }

  lemma ForwardStep(op: Extremum, p: seq<real>, g: seq<real>, i: int, e: int, v: real)
    requires ForwardUpTo(op, p, g, i, e) && e < |p| && e < |g| && v == Pick(op, g[e - 1], p[e])
    ensures ForwardUpTo(op, p, g[e := v], i, e + 1)
  {
    ExtSnocSlice(op, p, i, e);
  }

  lemma BackwardStep(op: Extremum, p: seq<real>, h: seq<real>, b: int, r: int, v: real)
    requires BackwardFrom(op, p, h, b, r) && b >= 0 && v == Pick(op, h[b + 1], p[b])
    ensures BackwardFrom(op, p, h[b := v], b - 1, r)
  {
    ExtConsSlice(op, p, b, r + 1);
  }

  /** The left-to-right step on a slice. */
  lemma ExtSnocSlice(op: Extremum, p: seq<real>, lo: int, t: int)
    requires 0 <= lo < t < |p|
    ensures Ext(op, p[lo .. t + 1]) == Pick(op, Ext(op, p[lo .. t]), p[t])
  {
    assert p[lo .. t + 1][.. t - lo] == p[lo .. t];
  }

  /** The right-to-left step on a slice. */
  lemma ExtConsSlice(op: Extremum, p: seq<real>, t: int, hi: int)
    requires 0 <= t && t + 1 < hi <= |p|
    ensures Ext(op, p[t .. hi]) == Pick(op, Ext(op, p[t + 1 .. hi]), p[t])
  {
    assert p[t .. hi] == [p[t]] + p[t + 1 .. hi];
    ExtCons(op, p[t], p[t + 1 .. hi]);
  }

  /** The block loop: blocks start at q, q + k, ... while they start inside the data. */
  method Blocks(ys: array<real>, gs: array<real>, hs: array<real>, q: int, n: int, k: int, fn: int, op: Extremum)
    returns (ghost m: nat)
    requires ys != gs && ys != hs && gs != hs && ys.Length == fn && gs.Length == fn && hs.Length == fn
    requires q >= 1 && k == 2 * q + 1 && k <= n && fn == n + 2 * q + (k - n % k)
    modifies gs, hs
    ensures m >= 1 && n + q <= Start(q, k, m) <= fn
    ensures BlocksDone(op, ys[..], gs[..], hs[..], q, k, m)
    ensures forall t :: 0 <= t < q ==> hs[t] == old(hs[t])
    ensures forall t :: Start(q, k, m) <= t < fn ==> gs[t] == old(gs[t])
  {
    ghost var p := ys[..];
    var i := q;
    var r := i + k - 1;
    m := 0;
    while i < n + q
      invariant i == Start(q, k, m) && r == i + k - 1 && q <= i <= fn
      invariant i > q ==> m >= 1
      invariant ys[..] == p
      invariant BlocksDone(op, p, gs[..], hs[..], q, k, m)
      invariant forall t :: 0 <= t < q ==> hs[t] == old(hs[t])
      invariant forall t :: i <= t < fn ==> gs[t] == old(gs[t])
    {
      BlockEnds(n, q, k, fn, m);
      ghost var g0, h0 := gs[..], hs[..];
      Block(ys, gs, hs, i, k, op, p);
      BlocksFrame(op, p, g0, h0, gs[..], hs[..], q, k, m);
      i, r := i + k, r + k;
      m := m + 1;
    }
  }

  /** The merge loop: output o picks between gs at o + k - 1 and hs at o. */
  method Merge(gs: array<real>, hs: array<real>, n: int, k: int, op: Extremum) returns (yo: array<real>)
    requires n >= 0 && k >= 1 && n + k - 1 <= gs.Length && n <= hs.Length
    ensures fresh(yo) && yo.Length == n
    ensures forall o :: 0 <= o < n ==> yo[o] == Pick(op, gs[o + k - 1], hs[o])
  {
    yo := new real[n];
    var i, gi, hi := 0, k - 1, 0;
    while i < n
      invariant 0 <= i <= n && gi == k - 1 + i && hi == i
      invariant forall o :: 0 <= o < i ==> yo[o] == Pick(op, gs[o + k - 1], hs[o])
    {
      yo[i] := Pick(op, gs[gi], hs[hi]);
      i, gi, hi := i + 1, gi + 1, hi + 1;
    }
  }

  /** The merged value at o is the extremum of the padded window [o, o + k): the window covers the end
      of o's block (from hs) and the start of the next one (from gs), or a single whole block. */
  lemma MergeCorrect(op: Extremum, p: seq<real>, g: seq<real>, h: seq<real>, q: nat, n: nat, k: nat, m: nat, o: nat)
    requires q >= 1 && k == 2 * q + 1 && |p| == |g| == |h| && 0 <= o < n && o + k <= |p|
    requires m >= 1 && n + q <= Start(q, k, m) <= |p|
    requires BlocksDone(op, p, g, h, q, k, m)
    requires forall t :: 0 <= t < q ==> h[t] == p[q] && p[t] == p[q]
    requires forall t :: Start(q, k, m) <= t < |p| ==> g[t] == p[q + n - 1]
    requires forall t :: q + n <= t < |p| ==> p[t] == p[q + n - 1]
    ensures Pick(op, g[o + k - 1], h[o]) == Ext(op, p[o .. o + k])
  {
    if o < q {
      MergeHead(op, p, g, h, q, k, m, o);
    } else {
      var b := FindBlock(q, k, o);
      assert b < m by {
        if b > m { StartMono(q, k, m, b); }
      }
      if o == Start(q, k, b) {
        MergeAligned(op, p, g, h, q, k, m, b, o);
      } else if b + 1 < m {
        MergeStraddle(op, p, g, h, q, k, m, b, o);
      } else {
        MergeTail(op, p, g, h, q, k, m, o, p[q + n - 1]);
      }
    }
  }

  /** A window starting in the left padding: the padding copies the first value, which block 0 holds. */
  lemma MergeHead(op: Extremum, p: seq<real>, g: seq<real>, h: seq<real>, q: nat, k: nat, m: nat, o: nat)
    requires k == 2 * q + 1 && o < q && m >= 1 && BlocksDone(op, p, g, h, q, k, m)
    requires forall t :: 0 <= t < q && t < |h| && t < |p| ==> h[t] == p[q] && p[t] == p[q]
    ensures q + k <= |p| == |g| == |h|
    ensures Pick(op, g[o + k - 1], h[o]) == Ext(op, p[o .. o + k])
  {
    BlocksGet(op, p, g, h, q, k, m, 0);
    assert g[o + k - 1] == Ext(op, p[q .. o + k]);
    assert p[o .. o + k] == p[o .. q] + p[q .. o + k];
    ExtConstant(op, p[o .. q], p[q]);
    ExtSplit(op, p[o .. q], p[q .. o + k]);
  }

  /** A window that is exactly block b. */
  lemma MergeAligned(op: Extremum, p: seq<real>, g: seq<real>, h: seq<real>, q: nat, k: nat, m: nat, b: nat, o: int)
    requires k >= 1 && b < m && o == Start(q, k, b) && BlocksDone(op, p, g, h, q, k, m)
    ensures 0 <= o && o + k <= |p| == |g| == |h|
    ensures Pick(op, g[o + k - 1], h[o]) == Ext(op, p[o .. o + k])
  {
    BlocksGet(op, p, g, h, q, k, m, b);
    assert g[o + k - 1] == Ext(op, p[o .. o + k]) == h[o];
  }

  /** A window straddling blocks b and b + 1: the tail of the first from h, the head of the second from g. */
  lemma MergeStraddle(op: Extremum, p: seq<real>, g: seq<real>, h: seq<real>, q: nat, k: nat, m: nat, b: nat, o: int)
    requires b + 1 < m && Start(q, k, b) < o < Start(q, k, b) + k && BlocksDone(op, p, g, h, q, k, m)
    ensures 0 <= o && o + k <= |p| == |g| == |h|
    ensures Pick(op, g[o + k - 1], h[o]) == Ext(op, p[o .. o + k])
  {
    BlocksGet(op, p, g, h, q, k, m, b);
    BlocksGet(op, p, g, h, q, k, m, b + 1);
    StraddleTwo(op, p, g, h, Start(q, k, b), Start(q, k, b + 1), k, o);
  }

  lemma StraddleTwo(op: Extremum, p: seq<real>, g: seq<real>, h: seq<real>, s: int, e: int, k: nat, o: int)
    requires e == s + k && s < o < e && BlockDone(op, p, g, h, s, k) && BlockDone(op, p, g, h, e, k)
    ensures Pick(op, g[o + k - 1], h[o]) == Ext(op, p[o .. o + k])
  {
    assert h[o] == Ext(op, p[o .. e]);
    assert g[o + k - 1] == Ext(op, p[e .. o + k]);
    assert p[o .. o + k] == p[o .. e] + p[e .. o + k];
    ExtSplit(op, p[o .. e], p[e .. o + k]);
  }

  /** A window running past the last block m - 1: there g and p are both the constant right padding v. */
  lemma MergeTail(op: Extremum, p: seq<real>, g: seq<real>, h: seq<real>, q: nat, k: nat, m: nat, o: int, v: real)
    requires m >= 1 && Start(q, k, m - 1) < o < Start(q, k, m) && o + k <= |p| && BlocksDone(op, p, g, h, q, k, m)
    requires forall t :: Start(q, k, m) <= t < |p| ==> g[t] == v && p[t] == v
    ensures Pick(op, g[o + k - 1], h[o]) == Ext(op, p[o .. o + k])
  {
    BlocksGet(op, p, g, h, q, k, m, m - 1);
    var e := Start(q, k, m);
    assert h[o] == Ext(op, p[o .. e]);
    assert p[o .. o + k] == p[o .. e] + p[e .. o + k];
    ExtConstant(op, p[e .. o + k], v);
    ExtSplit(op, p[o .. e], p[e .. o + k]);
  }

  /** erosion and dilation: out[o] is the extremum of y over [o - q, o + q], cut at the feature's ends. */
  method Sweep(y: array<real>, q: int, n: int, k: int, fn: int, op: Extremum) returns (yo: array<real>)
    requires q >= 1 && k == 2 * q + 1 && k <= n && y.Length == n && fn == n + 2 * q + (k - n % k)
    ensures fresh(yo) && yo.Length == n
    ensures forall o :: 0 <= o < n ==> yo[o] == Ext(op, Window(y[..], q, o))
  {
    var ys, gs, hs := PadArrays(y, q, n, fn);
    ghost var p := ys[..];
    assert forall t :: 0 <= t < q ==> hs[..][t] == p[q] && p[t] == p[q];
    assert forall t :: q + n <= t < fn ==> gs[..][t] == p[q + n - 1] && p[t] == p[q + n - 1];
    ghost var h0, g0 := hs[..], gs[..];
    ghost var m := Blocks(ys, gs, hs, q, n, k, fn, op);
    ghost var g, h := gs[..], hs[..];
    assert forall t :: 0 <= t < q ==> h[t] == h0[t];
    assert forall t :: Start(q, k, m) <= t < fn ==> g[t] == g0[t];
    yo := Merge(gs, hs, n, k, op);
    SweepWindows(op, y[..], p, g, h, q, n, k, m, fn);
  }

  /** Every merged value of Sweep is the extremum of its window. */
  lemma SweepWindows(op: Extremum, y: seq<real>, p: seq<real>, g: seq<real>, h: seq<real>,
                     q: nat, n: nat, k: nat, m: nat, fn: nat)
    requires q >= 1 && k == 2 * q + 1 && k <= n && |y| == n && fn == n + 2 * q + (k - n % k)
    requires p == Padded(y, q, fn) && |g| == fn && |h| == fn
    requires m >= 1 && n + q <= Start(q, k, m) <= fn
    requires BlocksDone(op, p, g, h, q, k, m)
    requires forall t :: 0 <= t < q ==> h[t] == p[q] && p[t] == p[q]
    requires forall t :: Start(q, k, m) <= t < fn ==> g[t] == p[q + n - 1]
    requires forall t :: q + n <= t < fn ==> p[t] == p[q + n - 1]
    ensures forall o :: 0 <= o < n ==> Pick(op, g[o + k - 1], h[o]) == Ext(op, Window(y, q, o))
  {
    forall o | 0 <= o < n
      ensures Pick(op, g[o + k - 1], h[o]) == Ext(op, Window(y, q, o))
    {
      MergeCorrect(op, p, g, h, q, n, k, m, o);
      PaddedWindow(op, y, q, fn, o);
    }
  }

  /** The structuring-element filter on a whole feature: each point replaced by the extremum of its window. */
  ghost function Filtered(op: Extremum, y: seq<real>, q: nat): (f: seq<real>)
    requires |y| > 0
    ensures |f| == |y|
  {
    seq(|y|, o requires 0 <= o < |y| => Ext(op, Window(y, q, o)))
  }

  /** The opening: erosion followed by dilation with the same element. */
  ghost function Opened(y: seq<real>, q: nat): (f: seq<real>)
    requires |y| > 0
    ensures |f| == |y|
  {
    Filtered(Maximum, Filtered(Minimum, y, q), q)
  }

  /** y[j] lies in the window around o exactly when j is within q of o. */
  lemma InWindow(y: seq<real>, q: nat, o: nat, j: int)
    requires o < |y| && 0 <= j < |y| && o - q <= j <= o + q
    ensures y[j] in Window(y, q, o)
  {
    assert Window(y, q, o)[j - MaxI(0, o - q)] == y[j];
  }

  /** Every value of the window around o is y[j] for some j within q of o. */
  lemma WindowMember(y: seq<real>, q: nat, o: nat, x: real) returns (j: nat)
    requires o < |y| && x in Window(y, q, o)
    ensures j < |y| && o - q <= j <= o + q && y[j] == x
  {
    var w := Window(y, q, o);
    var u :| 0 <= u < |w| && w[u] == x;
    j := MaxI(0, o - q) + u;
  }

  /** Erosion never raises a point and dilation never lowers one: each point is in its own window. */
  lemma FilteredBeats(op: Extremum, y: seq<real>, q: nat, o: nat)
    requires o < |y|
    ensures Beats(op, Filtered(op, y, q)[o], y[o])
  {
    InWindow(y, q, o, o);
    ExtIsExtreme(op, Window(y, q, o));
  }

  /** The opening never exceeds the signal: the window maximum of the eroded values around i picks an
      eroded value at some j within q of i, and i lies in j's window, so that value is at most y[i]. */
  lemma OpeningBelowInput(y: seq<real>, q: nat, i: nat)
    requires i < |y|
    ensures Opened(y, q)[i] <= y[i]
  {
    var e := Filtered(Minimum, y, q);
    ExtIsExtreme(Maximum, Window(e, q, i));
    var j := WindowMember(e, q, i, Opened(y, q)[i]);
    InWindow(y, q, j, i);
    ExtIsExtreme(Minimum, Window(y, q, j));
  }

  /** A flat signal is its own opening. */
  lemma OpenedConstant(y: seq<real>, q: nat, v: real)
    requires |y| > 0 && forall i :: 0 <= i < |y| ==> y[i] == v
    ensures forall i :: 0 <= i < |y| ==> Opened(y, q)[i] == v
  {
    var e := Filtered(Minimum, y, q);
    forall o | 0 <= o < |y|
      ensures e[o] == v
    {
      ExtConstant(Minimum, Window(y, q, o), v);
    }
    forall o | 0 <= o < |y|
      ensures Opened(y, q)[o] == v
    {
      ExtConstant(Maximum, Window(e, q, o), v);
    }
  }

  /** erosion: the running minimum over the element. */
  method Erosion(y: array<real>, q: int, n: int, k: int, fn: int) returns (yo: array<real>)
    requires q >= 1 && k == 2 * q + 1 && k <= n && y.Length == n && fn == n + 2 * q + (k - n % k)
    ensures fresh(yo) && yo[..] == Filtered(Minimum, y[..], q)
  {
    yo := Sweep(y, q, n, k, fn, Minimum);
  }

  /** dilation: the running maximum over the element. */
  method Dilation(es: array<real>, q: int, n: int, k: int, fn: int) returns (yo: array<real>)
    requires q >= 1 && k == 2 * q + 1 && k <= n && es.Length == n && fn == n + 2 * q + (k - n % k)
    ensures fresh(yo) && yo[..] == Filtered(Maximum, es[..], q)
  {
    yo := Sweep(es, q, n, k, fn, Maximum);
  }

  /** setParameters: half of the scan window, by integer division that truncates toward zero. */
  function HalfWindowWidth(scanWindow: int): (q: int)
    ensures scanWindow >= 0 ==> 0 <= q && 2 * q <= scanWindow <= 2 * q + 1
    ensures scanWindow < 0 ==> q <= 0 && 2 * q - 1 <= scanWindow <= 2 * q
  {
    if scanWindow >= 0 then scanWindow / 2 else -((-scanWindow) / 2)
  }

  /** isValidHalfWindowWidth: the element has at least three points and fits in the feature. */
  predicate ValidHalfWindowWidth(q: int, n: int)
  {
    q >= 1 && q * 2 + 1 <= n
  }

  /** The intensities of a feature's points. */
  function Zs(points: seq<XYZPoint>): (zs: seq<real>)
    ensures |zs| == |points| && forall i :: 0 <= i < |points| ==> zs[i] == points[i].z
  {
    seq(|points|, i requires 0 <= i < |points| => points[i].z)
  }

  /** The first half of applyTopHat: the feature's intensities, eroded and then dilated. */
  method OpenIntensities(points: seq<XYZPoint>, q: int) returns (ys: array<real>)
    requires ValidHalfWindowWidth(q, |points|)
    ensures ys.Length == |points| && ys[..] == Opened(Zs(points), q)
  {
    var n := |points|;
    var k := 2 * q + 1;
    var fn := n + 2 * q + (k - n % k);
    var yn := new real[n];
    forall i | 0 <= i < n {
      yn[i] := points[i].z;
    }
    assert yn[..] == Zs(points);
    var es := Erosion(yn, q, n, k, fn);
    ys := Dilation(es, q, n, k, fn);
  }

  /** applyTopHat: a feature whose window does not fit is returned unchanged; otherwise the copy keeps
      the first point and every later point has its opening subtracted and the base intensity added,
      so no corrected intensity falls below the base. */
  method TopHat(points: seq<XYZPoint>, q: int) returns (r: seq<XYZPoint>)
    ensures !ValidHalfWindowWidth(q, |points|) ==> r == points
    ensures ValidHalfWindowWidth(q, |points|) ==>
      |r| == |points| && r[0] == points[0] &&
      forall i :: 1 <= i < |r| ==>
        r[i] == XYZPoint(points[i].x, points[i].y, points[i].z - Opened(Zs(points), q)[i] + BASE_INTENSITY)
    ensures ValidHalfWindowWidth(q, |points|) ==> forall i :: 1 <= i < |r| ==> r[i].z >= BASE_INTENSITY
  {
    var n := |points|;
    if !ValidHalfWindowWidth(q, n) {
      return points;
    }
    var ys := OpenIntensities(points, q);
    ghost var op := Opened(Zs(points), q);
    r := [points[0]];
    var i := 1;
    while i < ys.Length
      invariant 1 <= i <= n && |r| == i && r[0] == points[0]
      invariant forall j :: 1 <= j < i ==> r[j] == XYZPoint(points[j].x, points[j].y, points[j].z - op[j] + BASE_INTENSITY)
    {
      var xyzOri := points[i];
      r := r + [XYZPoint(xyzOri.x, xyzOri.y, xyzOri.z - ys[i] + BASE_INTENSITY)];
      i := i + 1;
    }
    forall j | 1 <= j < |r|
      ensures r[j].z >= BASE_INTENSITY
    {
      OpeningBelowInput(Zs(points), q, j);
    }
  }
}
