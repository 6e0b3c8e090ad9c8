/** Matrix: a row-major matrix whose rows are updated in place by the elementary row operations. */
module Matrices {

  /** The rows of a matrix, each one holding cols values. */
  predicate Rect(m: seq<seq<real>>, cols: int)
  {
    forall r :: 0 <= r < |m| ==> |m[r]| == cols
  }

  /** The matrix with rows i and j exchanged. */
  function SwapRows(m: seq<seq<real>>, i: int, j: int): seq<seq<real>>
    requires 0 <= i < |m| && 0 <= j < |m|
  {
    m[i := m[j]][j := m[i]]
  }

  function RowScaled(row: seq<real>, factor: real): (r: seq<real>)
    ensures |r| == |row| && forall c :: 0 <= c < |row| ==> r[c] == row[c] * factor
  {
    seq(|row|, c requires 0 <= c < |row| => row[c] * factor)
  }

  /** The matrix with row i multiplied by factor. */
  function ScaleRow(m: seq<seq<real>>, i: int, factor: real): seq<seq<real>>
    requires 0 <= i < |m|
  {
    m[i := RowScaled(m[i], factor)]
  }

  function RowCombined(to: seq<real>, from: seq<real>, factor: real): (r: seq<real>)
    requires |to| <= |from|
    ensures |r| == |to| && forall c :: 0 <= c < |to| ==> r[c] == to[c] + factor * from[c]
  {
    seq(|to|, c requires 0 <= c < |to| => to[c] + factor * from[c])
  }

  /** The matrix with factor times row from added to row to. */
  function CombineRows(m: seq<seq<real>>, to: int, from: int, factor: real): seq<seq<real>>
    requires 0 <= to < |m| && 0 <= from < |m| && |m[to]| <= |m[from]|
  {
    m[to := RowCombined(m[to], m[from], factor)]
  }

  /** Swapping twice restores the matrix, and swapping a row with itself changes nothing. */
  lemma SwapRowsInvolution(m: seq<seq<real>>, i: int, j: int)
    requires 0 <= i < |m| && 0 <= j < |m|
    ensures SwapRows(SwapRows(m, i, j), i, j) == m && SwapRows(m, i, i) == m
    ensures |SwapRows(m, i, j)| == |m| && SwapRows(m, i, j)[i] == m[j] && SwapRows(m, i, j)[j] == m[i]
    ensures forall r :: 0 <= r < |m| && r != i && r != j ==> SwapRows(m, i, j)[r] == m[r]
  {
    var s := SwapRows(SwapRows(m, i, j), i, j);
    forall r | 0 <= r < |m|
      ensures s[r] == m[r]
    {
    }
  }

  /** Scaling a row by a nonzero factor is undone by scaling it by the inverse; no other row changes. */
  lemma ScaleRowInverse(m: seq<seq<real>>, i: int, factor: real)
    requires 0 <= i < |m| && factor != 0.0
    ensures ScaleRow(ScaleRow(m, i, factor), i, 1.0 / factor) == m
    ensures forall r :: 0 <= r < |m| && r != i ==> ScaleRow(m, i, factor)[r] == m[r]
  {
    var s := ScaleRow(ScaleRow(m, i, factor), i, 1.0 / factor);
    assert s[i] == m[i] by {
      forall c | 0 <= c < |m[i]|
        ensures s[i][c] == m[i][c]
      {
        calc {
          s[i][c];
          (m[i][c] * factor) * (1.0 / factor);
          m[i][c] * (factor * (1.0 / factor));
          m[i][c];
        }
      }
    }
    forall r | 0 <= r < |m|
      ensures s[r] == m[r]
    {
    }
  }

  /** Adding factor times another row is undone by adding -factor times it; no other row changes. */
  lemma CombineRowsInverse(m: seq<seq<real>>, to: int, from: int, factor: real)
    requires 0 <= to < |m| && 0 <= from < |m| && to != from && |m[to]| <= |m[from]|
    ensures CombineRows(CombineRows(m, to, from, factor), to, from, -factor) == m
    ensures forall r :: 0 <= r < |m| && r != to ==> CombineRows(m, to, from, factor)[r] == m[r]
  {
    var s := CombineRows(CombineRows(m, to, from, factor), to, from, -factor);
    assert s[to] == m[to];
    forall r | 0 <= r < |m|
      ensures s[r] == m[r]
    {
    }
  }

  // ---------------------------------------------------------------------------------------------
  // Row-operation histories

  /** An elementary row operation, as the solver applies it. */
  datatype RowOp = Swap(i: int, j: int) | Scale(row: int, factor: real) | Combine(to: int, from: int, factor: real)

  /** The operation applied to m; an operation whose rows m does not have leaves m as it is. */
  function ApplyOp(m: seq<seq<real>>, op: RowOp): (r: seq<seq<real>>)
    ensures |r| == |m|
  {
    match op
    case Swap(i, j) => if 0 <= i < |m| && 0 <= j < |m| then SwapRows(m, i, j) else m
    case Scale(i, f) => if 0 <= i < |m| then ScaleRow(m, i, f) else m
    case Combine(to, from, f) =>
      if 0 <= to < |m| && 0 <= from < |m| && |m[to]| <= |m[from]| then CombineRows(m, to, from, f) else m
  }

  /** The operations applied to m, first to last. */
  function Apply(ops: seq<RowOp>, m: seq<seq<real>>): (r: seq<seq<real>>)
    ensures |r| == |m|
    decreases |ops|
  {
    if |ops| == 0 then m else ApplyOp(Apply(ops[..|ops| - 1], m), ops[|ops| - 1])
  }

  /** An operation that can be undone: a scaling by a nonzero factor, or a combination of two rows. */
  predicate InvertibleOp(op: RowOp)
  {
    match op
    case Swap(_, _) => true
    case Scale(_, f) => f != 0.0
    case Combine(to, from, _) => to != from
  }

  predicate Invertible(ops: seq<RowOp>)
  {
    forall k :: 0 <= k < |ops| ==> InvertibleOp(ops[k])
  }

  /** The operation that undoes op. */
  function InverseOp(op: RowOp): RowOp
  {
    match op
    case Swap(i, j) => Swap(i, j)
    case Scale(i, f) => Scale(i, if f == 0.0 then 0.0 else 1.0 / f)
    case Combine(to, from, f) => Combine(to, from, -f)
  }

  /** The operations that undo ops, last to first. */
  function Inverse(ops: seq<RowOp>): (r: seq<RowOp>)
    ensures |r| == |ops|
    decreases |ops|
  {
    if |ops| == 0 then [] else [InverseOp(ops[|ops| - 1])] + Inverse(ops[..|ops| - 1])
  }

  lemma ApplySnoc(ops: seq<RowOp>, op: RowOp, m: seq<seq<real>>)
    ensures Apply(ops + [op], m) == ApplyOp(Apply(ops, m), op)
  {
    assert (ops + [op])[..|ops|] == ops;
  }

  /** Applying a + b is applying a, then b. */
  lemma {:induction false} ApplyAppend(a: seq<RowOp>, b: seq<RowOp>, m: seq<seq<real>>)
    ensures Apply(a + b, m) == Apply(b, Apply(a, m))
    decreases |b|
  {
    if |b| == 0 {
      assert a + b == a;
    } else {
      var b' := b[..|b| - 1];
      assert a + b == (a + b') + [b[|b| - 1]];
      assert b == b' + [b[|b| - 1]];
      ApplySnoc(a + b', b[|b| - 1], m);
      ApplyAppend(a, b', m);
      ApplySnoc(b', b[|b| - 1], Apply(a, m));
    }
  }

  /** An invertible operation is undone by its inverse, on every matrix. */
  lemma InverseOpUndoes(m: seq<seq<real>>, op: RowOp)
    requires InvertibleOp(op)
    ensures ApplyOp(ApplyOp(m, op), InverseOp(op)) == m
  {
    match op
    case Swap(i, j) =>
      if 0 <= i < |m| && 0 <= j < |m| { SwapRowsInvolution(m, i, j); }
    case Scale(i, f) =>
      if 0 <= i < |m| { ScaleRowInverse(m, i, f); }
    case Combine(to, from, f) =>
      if 0 <= to < |m| && 0 <= from < |m| && |m[to]| <= |m[from]| {
        CombineRowsInverse(m, to, from, f);
      }
  }

  /** The inverse of an invertible history is invertible. */
  lemma {:induction false} InverseInvertible(ops: seq<RowOp>)
    requires Invertible(ops)
    ensures Invertible(Inverse(ops))
    decreases |ops|
  {
    if |ops| > 0 {
      var init := ops[..|ops| - 1];
      InverseInvertible(init);
      var r := Inverse(ops);
      assert r == [InverseOp(ops[|ops| - 1])] + Inverse(init);
      forall k | 0 <= k < |r|
        ensures InvertibleOp(r[k])
      {
        if k > 0 { assert r[k] == Inverse(init)[k - 1]; }
      }
    }
  }

  /** Row operations lose nothing: the inverse history gives the original matrix back. */
  lemma {:induction false} InverseUndoes(ops: seq<RowOp>, m: seq<seq<real>>)
    requires Invertible(ops)
    ensures Apply(Inverse(ops), Apply(ops, m)) == m
    decreases |ops|
  {
    if |ops| > 0 {
      var init := ops[..|ops| - 1];
      var last := ops[|ops| - 1];
      assert Invertible(init) by {
        forall k | 0 <= k < |init|
          ensures InvertibleOp(init[k])
        {
          assert init[k] == ops[k];
        }
      }
      var before := Apply(init, m);
      ApplyAppend([InverseOp(last)], Inverse(init), Apply(ops, m));
      ApplySnoc([], InverseOp(last), Apply(ops, m));
      InverseOpUndoes(before, last);
      InverseUndoes(init, m);
    }
  }

  lemma InvertibleAppend(a: seq<RowOp>, b: seq<RowOp>)
    requires Invertible(a) && Invertible(b)
    ensures Invertible(a + b)
  {
    forall k | 0 <= k < |a + b|
      ensures InvertibleOp((a + b)[k])
    {
      if k >= |a| { assert (a + b)[k] == b[k - |a|]; }
    }
  }

  /** Two invertible histories in a row make one. */
  lemma Chain(ops: seq<RowOp>, more: seq<RowOp>, m0: seq<seq<real>>, m1: seq<seq<real>>, m2: seq<seq<real>>)
    requires Invertible(ops) && m1 == Apply(ops, m0) && Invertible(more) && m2 == Apply(more, m1)
    ensures Invertible(ops + more) && m2 == Apply(ops + more, m0)
  {
    ApplyAppend(ops, more, m0);
    InvertibleAppend(ops, more);
  }

  /** Two matrices are row-equivalent when an invertible history leads from one to the other. */
  ghost predicate RowEquivalent(a: seq<seq<real>>, b: seq<seq<real>>)
  {
    exists ops :: Invertible(ops) && Apply(ops, a) == b
  }

  /** Row equivalence goes both ways. */
  lemma RowEquivalentSymmetric(a: seq<seq<real>>, b: seq<seq<real>>, ops: seq<RowOp>)
    requires Invertible(ops) && Apply(ops, a) == b
    ensures RowEquivalent(b, a)
  {
    InverseUndoes(ops, a);
    InverseInvertible(ops);
  }

  /** Every row holds cols zeros. */
  predicate ZeroMatrix(m: seq<seq<real>>, cols: int)
  {
    Rect(m, cols) && forall r, c :: 0 <= r < |m| && 0 <= c < cols ==> m[r][c] == 0.0
  }

  lemma ApplyOpZero(m: seq<seq<real>>, cols: int, op: RowOp)
    requires ZeroMatrix(m, cols)
    ensures ApplyOp(m, op) == m
  {
    assert forall r, t :: 0 <= r < |m| && 0 <= t < |m| ==> m[r] == m[t];
    match op
    case Swap(i, j) =>
    case Scale(i, f) =>
      if 0 <= i < |m| { assert RowScaled(m[i], f) == m[i]; }
    case Combine(to, from, f) =>
      if 0 <= to < |m| && 0 <= from < |m| && |m[to]| <= |m[from]| {
        assert RowCombined(m[to], m[from], f) == m[to];
      }
  }

  /** Row operations map the zero matrix to itself. */
  lemma {:induction false} ApplyZero(ops: seq<RowOp>, m: seq<seq<real>>, cols: int)
    requires ZeroMatrix(m, cols)
    ensures Apply(ops, m) == m
    decreases |ops|
  {
    if |ops| > 0 {
      ApplyZero(ops[..|ops| - 1], m, cols);
      ApplyOpZero(m, cols, ops[|ops| - 1]);
    }
  }

  /** An invertible history reaches the zero matrix only from the zero matrix. */
  lemma OnlyZeroReachesZero(ops: seq<RowOp>, a: seq<seq<real>>, cols: int)
    requires Invertible(ops) && ZeroMatrix(Apply(ops, a), cols)
    ensures a == Apply(ops, a)
  {
    InverseUndoes(ops, a);
    ApplyZero(Inverse(ops), Apply(ops, a), cols);
  }

  /** Storing a value an entry already holds changes nothing. */
  lemma SetSame(m: seq<seq<real>>, r: int, c: int, v: real)
    requires 0 <= r < |m| && 0 <= c < |m[r]| && m[r][c] == v
    ensures m[r := m[r][c := v]] == m
  {
    assert m[r][c := v] == m[r];
  }

  class Matrix {
    /** The rows, each of nbCol values. */
    var values: seq<seq<real>>
    const nbRow: int
    const nbCol: int

    ghost predicate Valid()
      reads this
    {
      |values| == nbRow && 0 <= nbCol && Rect(values, nbCol)
    }

    /** Matrix(double[][]): the dimensions are those of the given rows, the first row giving the width. */
    constructor (values: seq<seq<real>>)
      requires |values| > 0 && Rect(values, |values[0]|)
      ensures Valid() && this.values == values && nbRow == |values| && nbCol == |values[0]|
    {
      this.values := values;
      nbRow := |values|;
      nbCol := |values[0]|;
    }

    /** Matrix(m, n): m rows of n zeros. */
    constructor Empty(m: nat, n: nat)
      ensures Valid() && nbRow == m && nbCol == n
      ensures forall r, c :: 0 <= r < m && 0 <= c < n ==> values[r][c] == 0.0
    {
      values := seq(m, r => seq(n, c => 0.0));
      nbRow := m;
      nbCol := n;
    }

    function Get(m: int, n: int): real
      reads this
      requires Valid() && 0 <= m < nbRow && 0 <= n < nbCol
    {
      values[m][n]
    }

    method Set(m: int, n: int, v: real)
      requires Valid() && 0 <= m < nbRow && 0 <= n < nbCol
      modifies this
      ensures Valid() && values == old(values)[m := old(values)[m][n := v]]
    {
      values := values[m := values[m][n := v]];
    }

    /** swapRow: exchanges two rows; nothing happens when i == j. */
    method SwapRow(i: int, j: int)
      requires Valid() && 0 <= i < nbRow && 0 <= j < nbRow
      modifies this
      ensures Valid() && values == SwapRows(old(values), i, j)
    {
      if i == j {
        SwapRowsInvolution(values, i, j);
        return;
      }
      var row := values[i];
      values := values[i := values[j]];
      values := values[j := row];
    }

    /** multiplyRow: multiplies every value of row i by factor, one column at a time. */
    method MultiplyRow(i: int, factor: real)
      requires Valid() && 0 <= i < nbRow
      modifies this
      ensures Valid() && values == ScaleRow(old(values), i, factor)
    {
      var j := 0;
      var n := |values[i]|;
      while j < n
        invariant 0 <= j <= n == nbCol && Valid()
        invariant values == old(values)[i := values[i]]
        invariant forall c :: 0 <= c < j ==> values[i][c] == old(values)[i][c] * factor
        invariant forall c :: j <= c < n ==> values[i][c] == old(values)[i][c]
      {
        values := values[i := values[i][j := values[i][j] * factor]];
        j := j + 1;
      }
      assert values[i] == RowScaled(old(values)[i], factor);
    }

    /** combineRow: adds factor times row from to row to, one column at a time. */
    method CombineRow(to: int, from: int, factor: real)
      requires Valid() && 0 <= to < nbRow && 0 <= from < nbRow
      modifies this
      ensures Valid() && values == CombineRows(old(values), to, from, factor)
    {
      var j := 0;
      var n := |values[to]|;
      while j < n
        invariant 0 <= j <= n == nbCol && Valid()
        invariant values == old(values)[to := values[to]]
        invariant forall c :: 0 <= c < j ==> values[to][c] == old(values)[to][c] + factor * old(values)[from][c]
        invariant forall c :: j <= c < n ==> values[to][c] == old(values)[to][c]
      {
        values := values[to := values[to][j := values[to][j] + factor * values[from][j]]];
        j := j + 1;
      }
      assert values[to] == RowCombined(old(values)[to], old(values)[from], factor);
    }
  }
}
