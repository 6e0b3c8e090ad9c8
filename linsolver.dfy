/** LinearSolver: Gauss elimination of an augmented matrix to row echelon form with leading ones, and
    the Gauss-Jordan back elimination that clears the entries above each leading one. */
module LinearSolving {
  import opened Matrices

  // ---------------------------------------------------------------------------------------------
  // Pivot search

  /** The first row from row on with a nonzero value in column col, or -1. */
  function FirstNonzeroRow(m: seq<seq<real>>, col: int, row: int): int
    requires Wide(m, col + 1) && 0 <= col && 0 <= row
    decreases |m| - row
  {
    if row >= |m| then -1 else if m[row][col] != 0.0 then row else FirstNonzeroRow(m, col, row + 1)
  }

  /** The rows of m are at least cols wide, so every (row, column < cols) entry exists. */
  predicate Wide(m: seq<seq<real>>, cols: int)
  {
    0 <= cols && forall r :: 0 <= r < |m| ==> cols <= |m[r]|
  }

  /** The pivot findPivot reports: the first column from col on with a nonzero value in a row from rank
      on, and the first such row; (-1, -1) when there is none. */
  function PivotFrom(m: seq<seq<real>>, cols: int, rank: int, col: int): (int, int)
    requires Wide(m, cols) && 0 <= rank && 0 <= col
    decreases cols - col
  {
    if col >= cols then (-1, -1)
    else
      var r := FirstNonzeroRow(m, col, rank);
      if r >= 0 then (r, col) else PivotFrom(m, cols, rank, col + 1)
  }

  lemma {:induction false} FirstNonzeroRowFinds(m: seq<seq<real>>, cols: int, col: int, row: int)
    requires Wide(m, cols) && 0 <= col < cols && 0 <= row
    ensures var r := FirstNonzeroRow(m, col, row);
      (r == -1 || (row <= r < |m| && m[r][col] != 0.0)) &&
      (forall t :: row <= t < |m| && (r == -1 || t < r) ==> m[t][col] == 0.0)
    decreases |m| - row
  {
    if row < |m| && m[row][col] == 0.0 {
      FirstNonzeroRowFinds(m, cols, col, row + 1);
    }
  }

  /** Every entry of rows from rank on, in columns [lo, hi), is zero. */
  ghost predicate ZeroBlock(m: seq<seq<real>>, rank: int, lo: int, hi: int)
    requires Wide(m, hi) && 0 <= lo && 0 <= rank
  {
    forall t, c :: rank <= t < |m| && lo <= c < hi ==> m[t][c] == 0.0
  }

  /** The pivot is the first nonzero entry in the column order: it lies in a row from rank on, every
      earlier column is zero in those rows, and so are the rows above it in its column; with no pivot,
      all those rows are zero from col on. */
  lemma {:induction false} PivotFromFinds(m: seq<seq<real>>, cols: int, rank: int, col: int)
    requires Wide(m, cols) && 0 <= rank && 0 <= col
    ensures var (pr, pc) := PivotFrom(m, cols, rank, col);
      (pr == -1 && pc == -1 && (col <= cols ==> ZeroBlock(m, rank, col, cols))) ||
      (rank <= pr < |m| && col <= pc < cols && m[pr][pc] != 0.0 && ZeroBlock(m, rank, col, pc) &&
       forall t :: rank <= t < pr ==> m[t][pc] == 0.0)
    decreases cols - col
  {
    if col < cols {
      FirstNonzeroRowFinds(m, cols, col, rank);
      var r := FirstNonzeroRow(m, col, rank);
      if r < 0 {
        PivotFromFinds(m, cols, rank, col + 1);
        var (pr, pc) := PivotFrom(m, cols, rank, col + 1);
        if pr == -1 {
          assert ZeroBlock(m, rank, col, cols) by {
            forall t, c | rank <= t < |m| && col <= c < cols
              ensures m[t][c] == 0.0
            {
              if c > col { assert ZeroBlock(m, rank, col + 1, cols); }
            }
          }
        } else {
          assert ZeroBlock(m, rank, col, pc) by {
            forall t, c | rank <= t < |m| && col <= c < pc
              ensures m[t][c] == 0.0
            {
              if c > col { assert ZeroBlock(m, rank, col + 1, pc); }
            }
          }
        }
      }
    }
  }

  /** The first nonzero value of a row from column col on, or -1. */
  function LeadingFrom(row: seq<real>, col: nat): int
    decreases |row| - col
  {
    if col >= |row| then -1 else if row[col] != 0.0 then col else LeadingFrom(row, col + 1)
  }

  /** findLeadingValue: -1 exactly when the row is all zero, else the column of its first nonzero value. */
  lemma {:induction false} LeadingFromFinds(row: seq<real>, col: nat)
    ensures var l := LeadingFrom(row, col);
      (l == -1 <==> forall c :: col <= c < |row| ==> row[c] == 0.0) &&
      (l != -1 ==> col <= l < |row| && row[l] != 0.0 && forall c :: col <= c < l ==> row[c] == 0.0)
    decreases |row| - col
  {
    if col < |row| && row[col] == 0.0 {
      LeadingFromFinds(row, col + 1);
    }
  }

  // ---------------------------------------------------------------------------------------------
  // Row echelon form

  /** The column of the last pivot, or -1 before the first. */
  function LastPivot(p: seq<int>): int
  {
    if |p| == 0 then -1 else p[|p| - 1]
  }

  /** The rows above |p| are in echelon form: increasing pivot columns, a leading 1 at each pivot and
      zeros before it. */
  ghost predicate Top(m: seq<seq<real>>, cols: int, p: seq<int>)
  {
    |p| <= |m| && Rect(m, cols) &&
    (forall k :: 0 <= k < |p| ==> 0 <= p[k] < cols) &&
    (forall k, l :: 0 <= k < l < |p| ==> p[k] < p[l]) &&
    (forall k :: 0 <= k < |p| ==> m[k][p[k]] == 1.0) &&
    (forall k, c :: 0 <= k < |p| && 0 <= c < p[k] ==> m[k][c] == 0.0)
  }

  /** Every row from |p| on is zero up to and including the last pivot column. */
  ghost predicate Echelon(m: seq<seq<real>>, cols: int, p: seq<int>)
  {
    Top(m, cols, p) && LastPivot(p) < cols &&
    forall t, c :: |p| <= t < |m| && 0 <= c <= LastPivot(p) ==> m[t][c] == 0.0
  }

  /** The rows from r on are zero. */
  ghost predicate ZeroRowsFrom(m: seq<seq<real>>, cols: int, r: int)
    requires Rect(m, cols) && 0 <= r
  {
    forall t, c :: r <= t < |m| && 0 <= c < cols ==> m[t][c] == 0.0
  }

  /** Below every pivot the column is zero: the form doGauss promises. */
  lemma EchelonZeroBelowPivots(m: seq<seq<real>>, cols: int, p: seq<int>)
    requires Echelon(m, cols, p)
    ensures forall k, t :: 0 <= k < |p| && k < t < |m| ==> m[t][p[k]] == 0.0
  {
    forall k, t | 0 <= k < |p| && k < t < |m|
      ensures m[t][p[k]] == 0.0
    {
      if t < |p| {
        assert p[k] < p[t];
      } else {
        assert p[k] <= LastPivot(p);
      }
    }
  }

  /** Top only looks at the rows above |p|. */
  lemma TopFrame(m: seq<seq<real>>, m': seq<seq<real>>, cols: int, p: seq<int>)
    requires Top(m, cols, p) && |m'| == |m| && Rect(m', cols)
    requires forall k :: 0 <= k < |p| ==> m'[k] == m[k]
    ensures Top(m', cols, p)
  {
  }

  /** Rows from rank on are zero before column pc, and the pivot entry is nonzero. */
  ghost predicate Found(m: seq<seq<real>>, cols: int, p: seq<int>, pr: int, pc: int)
  {
    Top(m, cols, p) && |p| <= pr < |m| && LastPivot(p) < pc < cols && m[pr][pc] != 0.0 &&
    forall t, c :: |p| <= t < |m| && 0 <= c < pc ==> m[t][c] == 0.0
  }

  /** A pivot found after the last one leaves the rows from rank on zero before it. */
  lemma PivotFound(m: seq<seq<real>>, cols: int, p: seq<int>)
    requires Echelon(m, cols, p) && |p| < |m|
    ensures var (pr, pc) := PivotFrom(m, cols, |p|, LastPivot(p) + 1);
      pr == -1 || Found(m, cols, p, pr, pc)
    ensures PivotFrom(m, cols, |p|, LastPivot(p) + 1).0 == -1 ==> ZeroRowsFrom(m, cols, |p|)
  {
    PivotFromFinds(m, cols, |p|, LastPivot(p) + 1);
    var (pr, pc) := PivotFrom(m, cols, |p|, LastPivot(p) + 1);
    if pr != -1 {
      forall t, c | |p| <= t < |m| && 0 <= c < pc
        ensures m[t][c] == 0.0
      {
        if c > LastPivot(p) { assert ZeroBlock(m, |p|, LastPivot(p) + 1, pc); }
      }
    } else {
      forall t, c | |p| <= t < |m| && 0 <= c < cols
        ensures m[t][c] == 0.0
      {
        if c > LastPivot(p) { assert ZeroBlock(m, |p|, LastPivot(p) + 1, cols); }
      }
    }
  }

  /** Swapping the pivot row up to row rank keeps the rows above and the zeros below. */
  lemma SwapFound(m: seq<seq<real>>, cols: int, p: seq<int>, pr: int, pc: int)
    requires Found(m, cols, p, pr, pc)
    ensures Found(SwapRows(m, pr, |p|), cols, p, |p|, pc)
  {
    var s := SwapRows(m, pr, |p|);
    SwapRowsInvolution(m, pr, |p|);
    TopFrame(m, s, cols, p);
  }

  /** The state of the reduction loop below row rank = |p| with pivot column pc: the pivot row has its
      leading 1, rows (rank, i) are zero up to pc, and rows from i on are zero before pc. */
  ghost predicate Reducing(m: seq<seq<real>>, cols: int, p: seq<int>, pc: int, i: int)
  {
    Top(m, cols, p) && |p| < |m| && LastPivot(p) < pc < cols && |p| < i <= |m| &&
    m[|p|][pc] == 1.0 && (forall c :: 0 <= c < pc ==> m[|p|][c] == 0.0) &&
    (forall t, c :: |p| < t < i && 0 <= c <= pc ==> m[t][c] == 0.0) &&
    (forall t, c :: i <= t < |m| && 0 <= c < pc ==> m[t][c] == 0.0)
  }

  /** Dividing the pivot row by its leading value (and storing exactly 1 at the pivot) starts the
      reduction. */
  lemma ScaleFound(m: seq<seq<real>>, cols: int, p: seq<int>, pc: int)
    requires Found(m, cols, p, |p|, pc)
    ensures var lv := m[|p|][pc];
      var s := ScaleRow(m, |p|, 1.0 / lv);
      Reducing(s[|p| := s[|p|][pc := 1.0]], cols, p, pc, |p| + 1) &&
      (lv == 1.0 ==> Reducing(m, cols, p, pc, |p| + 1))
  {
    var lv := m[|p|][pc];
    var s := ScaleRow(m, |p|, 1.0 / lv);
    var s' := s[|p| := s[|p|][pc := 1.0]];
    ScaleRowInverse(m, |p|, 1.0 / lv);
    TopFrame(m, s', cols, p);
    forall c | 0 <= c < pc
      ensures s'[|p|][c] == 0.0
    {
      assert m[|p|][c] == 0.0;
    }
  }

  /** One row of the reduction: a nonzero lv in the pivot column is cleared by adding -lv times the
      pivot row (and storing exactly 0); a zero one needs nothing. */
  lemma ReduceRow(m: seq<seq<real>>, cols: int, p: seq<int>, pc: int, i: int)
    requires Reducing(m, cols, p, pc, i) && i < |m|
    ensures var lv := m[i][pc];
      var s := CombineRows(m, i, |p|, -lv);
      (lv != 0.0 ==> Reducing(s[i := s[i][pc := 0.0]], cols, p, pc, i + 1)) &&
      (lv == 0.0 ==> Reducing(m, cols, p, pc, i + 1))
  {
    var lv := m[i][pc];
    if lv != 0.0 {
      var s := CombineRows(m, i, |p|, -lv);
      var s' := s[i := s[i][pc := 0.0]];
      CombineRowsInverse(m, i, |p|, -lv);
      TopFrame(m, s', cols, p);
      forall c | 0 <= c <= pc
        ensures s'[i][c] == 0.0
      {
        if c < pc {
          assert m[i][c] == 0.0 && m[|p|][c] == 0.0;
        }
      }
      assert forall t :: 0 <= t < |m| && t != i ==> s'[t] == m[t];
    }
  }

  /** The finished reduction is in echelon form with pc as one more pivot. */
  lemma ReduceDone(m: seq<seq<real>>, cols: int, p: seq<int>, pc: int)
    requires Reducing(m, cols, p, pc, |m|)
    ensures Echelon(m, cols, p + [pc])
  {
    var q := p + [pc];
    assert forall k :: 0 <= k < |p| ==> q[k] == p[k];
    assert forall k :: 0 <= k < |p| ==> p[k] <= LastPivot(p);
  }

  // ---------------------------------------------------------------------------------------------
  // Reduced row echelon form

  /** Above the pivots of rows from r on, every column is zero. */
  ghost predicate AboveZero(m: seq<seq<real>>, cols: int, p: seq<int>, r: int)
    requires Top(m, cols, p)
  {
    forall k, t :: 0 <= r <= k < |p| && 0 <= t < k ==> m[t][p[k]] == 0.0
  }

  /** The Gauss result: echelon form, zero rows after the pivots. */
  ghost predicate GaussForm(m: seq<seq<real>>, cols: int, p: seq<int>)
  {
    Echelon(m, cols, p) && ZeroRowsFrom(m, cols, |p|)
  }

  /** findLeadingValue on a Gauss result: the pivot column for a pivot row, -1 for the zero rows. */
  lemma LeadingOfGaussForm(m: seq<seq<real>>, cols: int, p: seq<int>, row: int)
    requires GaussForm(m, cols, p) && 0 <= row < |m|
    ensures LeadingFrom(m[row], 0) == if row < |p| then p[row] else -1
  {
    LeadingFromFinds(m[row], 0);
  }

  /** The state of the back-elimination loop for pivot row k: rows above are cleared in column p[k]
      from row i + 1 up to k - 1, and the pivots below k are already cleared above. */
  ghost predicate Clearing(m: seq<seq<real>>, cols: int, p: seq<int>, k: int, i: int)
  {
    GaussForm(m, cols, p) && 0 < k < |p| && -1 <= i < k && AboveZero(m, cols, p, k + 1) &&
    forall t :: i < t < k ==> m[t][p[k]] == 0.0
  }

  /** Clearing row i above pivot k: adding -v times row k keeps every other fact. */
  lemma ClearRow(m: seq<seq<real>>, cols: int, p: seq<int>, k: int, i: int)
    requires Clearing(m, cols, p, k, i) && 0 <= i
    ensures var v := m[i][p[k]];
      (v != 0.0 ==> Clearing(CombineRows(m, i, k, -v), cols, p, k, i - 1)) &&
      (v == 0.0 ==> Clearing(m, cols, p, k, i - 1))
  {
    var v := m[i][p[k]];
    if v != 0.0 {
      var s := CombineRows(m, i, k, -v);
      CombineAboveKeepsGauss(m, cols, p, k, i, -v);
      forall l | k < l < |p|
        ensures s[i][p[l]] == m[i][p[l]]
      {
        assert m[k][p[l]] == 0.0;
      }
      assert forall t :: 0 <= t < |m| && t != i ==> s[t] == m[t];
    }
  }

  /** Adding a multiple of pivot row k to a row i above it keeps the Gauss form: row k is zero before
      its pivot, which lies after row i's. */
  lemma CombineAboveKeepsGauss(m: seq<seq<real>>, cols: int, p: seq<int>, k: int, i: int, f: real)
    requires GaussForm(m, cols, p) && 0 <= i < k < |p|
    ensures GaussForm(CombineRows(m, i, k, f), cols, p)
  {
    var s := CombineRows(m, i, k, f);
    CombineRowsInverse(m, i, k, f);
    assert forall c :: 0 <= c < p[k] ==> s[i][c] == m[i][c] by {
      assert forall c :: 0 <= c < p[k] ==> m[k][c] == 0.0;
    }
    assert p[i] < p[k];
  }

  /** With every row above pivot k cleared, the pivots from k on are cleared above. */
  lemma ClearDone(m: seq<seq<real>>, cols: int, p: seq<int>, k: int)
    requires Clearing(m, cols, p, k, -1)
    ensures GaussForm(m, cols, p) && AboveZero(m, cols, p, k)
  {
  }

  /** In the Gauss-Jordan result every pivot column is a unit column, so each pivot row reads off the
      value of its variable. */
  lemma PivotColumnsAreUnit(m: seq<seq<real>>, cols: int, p: seq<int>)
    requires GaussForm(m, cols, p) && AboveZero(m, cols, p, 0)
    ensures forall k, t :: 0 <= k < |p| && 0 <= t < |m| ==> m[t][p[k]] == if t == k then 1.0 else 0.0
  {
    EchelonZeroBelowPivots(m, cols, p);
  }

  // ---------------------------------------------------------------------------------------------
  // The solver

  class LinearSolver {
    /** The pivot found last; -1 when the search failed. */
    var pivotRow: int
    var pivotCol: int

    constructor ()
      ensures pivotRow == 0 && pivotCol == 0
    {
      pivotRow, pivotCol := 0, 0;
    }

    /** solve: Gauss elimination, then the Jordan back elimination unless gaussOnly. The result is in
        echelon form with leading ones and zero rows after the pivots; without gaussOnly it is also
        zero above every leading one. The ghost ops are the row operations applied, so the result is
        row-equivalent to the input. */
    method Solve(matrix: Matrix, gaussOnly: bool) returns (ghost p: seq<int>, ghost ops: seq<RowOp>)
      requires matrix.Valid()
      modifies this, matrix
      ensures matrix.Valid()
      ensures GaussForm(matrix.values, matrix.nbCol, p)
      ensures !gaussOnly ==> AboveZero(matrix.values, matrix.nbCol, p, 0)
      ensures Invertible(ops) && matrix.values == Apply(ops, old(matrix.values))
      ensures RowEquivalent(old(matrix.values), matrix.values) && RowEquivalent(matrix.values, old(matrix.values))
    {
      pivotRow, pivotCol := -1, -1;
      p, ops := DoGauss(matrix);
      if !gaussOnly {
        ghost var m := matrix.values;
        ghost var jops := DoGaussJordan(matrix, p);
        Chain(ops, jops, old(matrix.values), m, matrix.values);
        ops := ops + jops;
      }
      RowEquivalentSymmetric(old(matrix.values), matrix.values, ops);
    }

    /** doGauss: for each rank, finds the next pivot (stopping when there is none), swaps it up,
        forces its leading value to 1 and clears the entries below it to exactly 0. The ghost result
        lists the pivot columns and the row operations applied; the stores of exactly 1 change nothing
        over the reals. */
    method DoGauss(matrix: Matrix) returns (ghost p: seq<int>, ghost ops: seq<RowOp>)
      requires matrix.Valid() && pivotCol == -1
      modifies this, matrix
      ensures matrix.Valid() && GaussForm(matrix.values, matrix.nbCol, p)
      ensures Invertible(ops) && matrix.values == Apply(ops, old(matrix.values))
    {
      p, ops := [], [];
      var rank := 0;
      while rank < matrix.nbRow
        invariant matrix.Valid() && rank == |p| <= matrix.nbRow
        invariant Echelon(matrix.values, matrix.nbCol, p) && pivotCol == LastPivot(p)
        invariant Invertible(ops) && matrix.values == Apply(ops, old(matrix.values))
      {
        PivotFound(matrix.values, matrix.nbCol, p);
        FindPivot(matrix, rank);
        if pivotRow < 0 {
          return;
        }
        ghost var pc := pivotCol;
        ghost var m0 := matrix.values;
        ghost var sops := SwapPivotUp(matrix, rank, p, pc);
        Chain(ops, sops, old(matrix.values), m0, matrix.values);
        ops := ops + sops;
        ghost var m1 := matrix.values;
        ghost var nops := ScalePivot(matrix, rank, p, pc);
        Chain(ops, nops, old(matrix.values), m1, matrix.values);
        ops := ops + nops;
        ghost var m2 := matrix.values;
        ghost var rops := ReduceBelow(matrix, rank, p, pc);
        Chain(ops, rops, old(matrix.values), m2, matrix.values);
        ops := ops + rops;
        p := p + [pc];
        rank := rank + 1;
      }
    }

    /** Step 1 of doGauss: swaps the pivot row up to row rank. */
    method SwapPivotUp(matrix: Matrix, rank: int, ghost p: seq<int>, ghost pc: int) returns (ghost ops: seq<RowOp>)
      requires matrix.Valid() && rank == |p| && Found(matrix.values, matrix.nbCol, p, pivotRow, pc)
      modifies matrix
      ensures matrix.Valid() && Found(matrix.values, matrix.nbCol, p, rank, pc)
      ensures Invertible(ops) && matrix.values == Apply(ops, old(matrix.values))
    {
      ops := [];
      if pivotRow != rank {
        SwapFound(matrix.values, matrix.nbCol, p, pivotRow, pc);
        matrix.SwapRow(pivotRow, rank);
        ApplySnoc([], Swap(pivotRow, rank), old(matrix.values));
        ops := [Swap(pivotRow, rank)];
      }
    }

    /** Step 2 of doGauss: divides the pivot row by its leading value and stores exactly 1 there, which
        over the reals the row already holds. */
    method ScalePivot(matrix: Matrix, rank: int, ghost p: seq<int>, ghost pc: int) returns (ghost ops: seq<RowOp>)
      requires matrix.Valid() && rank == |p| && pivotCol == pc && Found(matrix.values, matrix.nbCol, p, rank, pc)
      modifies matrix
      ensures matrix.Valid() && Reducing(matrix.values, matrix.nbCol, p, pc, rank + 1)
      ensures Invertible(ops) && matrix.values == Apply(ops, old(matrix.values))
    {
      ops := [];
      var leadingValue := matrix.Get(rank, pivotCol);
      ScaleFound(matrix.values, matrix.nbCol, p, pc);
      if leadingValue != 1.0 {
        matrix.MultiplyRow(rank, 1.0 / leadingValue);
        ghost var scaled := matrix.values;
        assert scaled[rank][pc] == leadingValue * (1.0 / leadingValue) == 1.0;
        matrix.Set(rank, pivotCol, 1.0);
        SetSame(scaled, rank, pc, 1.0);
        ApplySnoc([], Scale(rank, 1.0 / leadingValue), old(matrix.values));
        ops := [Scale(rank, 1.0 / leadingValue)];
      }
    }

    /** Step 3 of doGauss: clears the pivot column in every row below rank, adding -v times the pivot row
        to a row holding v and then storing exactly 0, which over the reals the row already holds. */
    method ReduceBelow(matrix: Matrix, rank: int, ghost p: seq<int>, ghost pc: int) returns (ghost ops: seq<RowOp>)
      requires matrix.Valid() && Reducing(matrix.values, matrix.nbCol, p, pc, rank + 1)
      requires pivotCol == pc && rank == |p|
      modifies matrix
      ensures matrix.Valid() && Echelon(matrix.values, matrix.nbCol, p + [pc])
      ensures Invertible(ops) && matrix.values == Apply(ops, old(matrix.values))
    {
      ops := [];
      var i := rank + 1;
      while i < matrix.nbRow
        invariant matrix.Valid() && Reducing(matrix.values, matrix.nbCol, p, pc, i)
        invariant Invertible(ops) && matrix.values == Apply(ops, old(matrix.values))
      {
        ghost var m := matrix.values;
        ghost var iops := ReduceRowBelow(matrix, rank, p, pc, i);
        Chain(ops, iops, old(matrix.values), m, matrix.values);
        ops := ops + iops;
        i := i + 1;
      }
      ReduceDone(matrix.values, matrix.nbCol, p, pc);
    }

    /** One row of step 3: a row holding v in the pivot column gets -v times the pivot row added and
        then exactly 0 stored there, which over the reals it already holds. */
    method ReduceRowBelow(matrix: Matrix, rank: int, ghost p: seq<int>, ghost pc: int, i: int) returns (ghost ops: seq<RowOp>)
      requires matrix.Valid() && Reducing(matrix.values, matrix.nbCol, p, pc, i) && i < matrix.nbRow
      requires pivotCol == pc && rank == |p|
      modifies matrix
      ensures matrix.Valid() && Reducing(matrix.values, matrix.nbCol, p, pc, i + 1)
      ensures Invertible(ops) && matrix.values == Apply(ops, old(matrix.values))
    {
      ops := [];
      ReduceRow(matrix.values, matrix.nbCol, p, pc, i);
      var leadingValue := matrix.Get(i, pivotCol);
      if leadingValue != 0.0 {
        matrix.CombineRow(i, rank, -leadingValue);
        ghost var combined := matrix.values;
        assert combined[i][pc] == old(matrix.values)[i][pc] + -leadingValue * old(matrix.values)[rank][pc] == 0.0;
        matrix.Set(i, pivotCol, 0.0);
        SetSame(combined, i, pc, 0.0);
        ApplySnoc([], Combine(i, rank, -leadingValue), old(matrix.values));
        ops := [Combine(i, rank, -leadingValue)];
      }
    }

    /** findPivot: scans the columns after the last pivot, and in each the rows from rank on, for the
        first nonzero value. */
    method FindPivot(matrix: Matrix, rank: int)
      requires matrix.Valid() && 0 <= rank && -1 <= pivotCol
      modifies this
      ensures (pivotRow, pivotCol) == PivotFrom(matrix.values, matrix.nbCol, rank, old(pivotCol) + 1)
    {
      var col := pivotCol + 1;
      while col < matrix.nbCol
        invariant old(pivotCol) + 1 <= col
        invariant PivotFrom(matrix.values, matrix.nbCol, rank, col) == PivotFrom(matrix.values, matrix.nbCol, rank, old(pivotCol) + 1)
      {
        var row := rank;
        while row < matrix.nbRow
          invariant rank <= row
          invariant FirstNonzeroRow(matrix.values, col, row) == FirstNonzeroRow(matrix.values, col, rank)
        {
          if matrix.Get(row, col) != 0.0 {
            pivotRow, pivotCol := row, col;
            return;
          }
          row := row + 1;
        }
        col := col + 1;
      }
      pivotRow, pivotCol := -1, -1;
    }

    /** doGaussJordan: from the last row up to row 1, clears the column of each row's leading value in
        every row above it. The ghost ops are the row operations applied. */
    method DoGaussJordan(matrix: Matrix, ghost p: seq<int>) returns (ghost ops: seq<RowOp>)
      requires matrix.Valid() && GaussForm(matrix.values, matrix.nbCol, p)
      modifies matrix
      ensures matrix.Valid() && GaussForm(matrix.values, matrix.nbCol, p)
      ensures AboveZero(matrix.values, matrix.nbCol, p, 0)
      ensures Invertible(ops) && matrix.values == Apply(ops, old(matrix.values))
    {
      ops := [];
      var row := matrix.nbRow - 1;
      while row > 0
        invariant matrix.Valid() && -1 <= row < matrix.nbRow
        invariant GaussForm(matrix.values, matrix.nbCol, p) && AboveZero(matrix.values, matrix.nbCol, p, row + 1)
        invariant Invertible(ops) && matrix.values == Apply(ops, old(matrix.values))
      {
        LeadingOfGaussForm(matrix.values, matrix.nbCol, p, row);
        var col := FindLeadingValue(matrix, row);
        if col != -1 {
          ghost var m := matrix.values;
          ghost var cops := ClearAbove(matrix, row, col, p);
          Chain(ops, cops, old(matrix.values), m, matrix.values);
          ops := ops + cops;
        }
        row := row - 1;
      }
    }

    /** The inner loop of doGaussJordan: from row - 1 up to row 0, adds -v times the pivot row to a row
        holding v in the pivot column. The ghost ops are the row operations applied. */
    method ClearAbove(matrix: Matrix, row: int, col: int, ghost p: seq<int>) returns (ghost ops: seq<RowOp>)
      requires matrix.Valid() && Clearing(matrix.values, matrix.nbCol, p, row, row - 1) && col == p[row]
      modifies matrix
      ensures matrix.Valid() && GaussForm(matrix.values, matrix.nbCol, p) && AboveZero(matrix.values, matrix.nbCol, p, row)
      ensures Invertible(ops) && matrix.values == Apply(ops, old(matrix.values))
    {
      ops := [];
      var i := row - 1;
      while i >= 0
        invariant matrix.Valid() && Clearing(matrix.values, matrix.nbCol, p, row, i)
        invariant Invertible(ops) && matrix.values == Apply(ops, old(matrix.values))
      {
        ghost var m := matrix.values;
        ghost var iops := ClearRowAbove(matrix, row, col, p, i);
        Chain(ops, iops, old(matrix.values), m, matrix.values);
        ops := ops + iops;
        i := i - 1;
      }
      ClearDone(matrix.values, matrix.nbCol, p, row);
    }

    /** One row of the inner loop: a row i holding v in the pivot column gets -v times the pivot row. */
    method ClearRowAbove(matrix: Matrix, row: int, col: int, ghost p: seq<int>, i: int) returns (ghost ops: seq<RowOp>)
      requires matrix.Valid() && Clearing(matrix.values, matrix.nbCol, p, row, i) && col == p[row] && 0 <= i
      modifies matrix
      ensures matrix.Valid() && Clearing(matrix.values, matrix.nbCol, p, row, i - 1)
      ensures Invertible(ops) && matrix.values == Apply(ops, old(matrix.values))
    {
      ops := [];
      ClearRow(matrix.values, matrix.nbCol, p, row, i);
      var value := matrix.Get(i, col);
      if value != 0.0 {
        matrix.CombineRow(i, row, -value);
        ApplySnoc([], Combine(i, row, -value), old(matrix.values));
        ops := [Combine(i, row, -value)];
      }
    }

    /** findLeadingValue: the column of the first nonzero value of the row, or -1. */
    method FindLeadingValue(matrix: Matrix, row: int) returns (col: int)
      requires matrix.Valid() && 0 <= row < matrix.nbRow
      ensures col == LeadingFrom(matrix.values[row], 0)
    {
      var i := 0;
      while i < matrix.nbCol
        invariant 0 <= i && LeadingFrom(matrix.values[row], i) == LeadingFrom(matrix.values[row], 0)
      {
        if matrix.Get(row, i) != 0.0 {
          return i;
        }
        i := i + 1;
      }
      return -1;
    }
  }
}
