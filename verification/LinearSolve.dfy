/** Gauss-Jordan elimination with partial pivoting over exact arithmetic. */
module LinearSolve {
  import opened Reals

  const TINY := 0.000_000_000_001

  type Row = seq<real>

  /** The first `k` products of a row with a vector. */
  function Dot(row: Row, x: seq<real>, k: nat): real
    requires k <= |row| && k <= |x|
  {
    if k == 0 then 0.0 else Dot(row, x, k - 1) + row[k - 1] * x[k - 1]
  }

  /** `n` rows of `n` coefficients and a right-hand side. */
  ghost predicate Augmented(m: seq<Row>, n: nat) {
    |m| == n && forall r :: 0 <= r < n ==> |m[r]| == n + 1
  }

  /** How far `x` is from satisfying a row. */
  function Residual(row: Row, x: seq<real>, n: nat): real
    requires |row| == n + 1 && |x| == n
  {
    Dot(row, x, n) - row[n]
  }

  ghost predicate Solves(m: seq<Row>, n: nat, x: seq<real>)
    requires Augmented(m, n)
  {
    |x| == n && forall r :: 0 <= r < n ==> Residual(m[r], x, n) == 0.0
  }

  ghost function SolutionsOf(m: seq<Row>, n: nat): iset<seq<real>>
    requires Augmented(m, n)
  {
    iset x: seq<real> | Solves(m, n, x)
  }

  // ---- The elimination, step by step ----

  /** The row at or below `col` with the largest entry in that column, the first of equals. */
  function PivotFrom(m: seq<Row>, n: nat, col: nat, best: nat, r: nat): (p: nat)
    requires Augmented(m, n) && col <= best < n && col < r <= n
    ensures col <= p < n
    decreases n - r
  {
    if r == n then best
    else PivotFrom(m, n, col, if Abs(m[r][col]) > Abs(m[best][col]) then r else best, r + 1)
  }

  function Swapped(m: seq<Row>, i: nat, j: nat): (s: seq<Row>)
    requires i < |m| && j < |m|
    ensures |s| == |m| && s[i] == m[j] && s[j] == m[i]
    ensures forall r :: 0 <= r < |m| && r != i && r != j ==> s[r] == m[r]
  {
    m[i := m[j]][j := m[i]]
  }

  /** Subtract `f` times the pivot row from column `col` on. */
  function Reduced(row: Row, pivot: Row, f: real, col: nat): (r: Row)
    requires |row| == |pivot|
    ensures |r| == |row| && forall c :: 0 <= c < |row| ==> r[c] == if c < col then row[c] else row[c] - f * pivot[c]
  {
    seq(|row|, c requires 0 <= c < |row| => if c < col then row[c] else row[c] - f * pivot[c])
  }

  /** Clear one row of the column, unless it is the pivot's or already clear. */
  function Cleared(m: seq<Row>, n: nat, col: nat, r: nat): (row: Row)
    requires Augmented(m, n) && col < n && r < n && m[col][col] != 0.0
    ensures |row| == n + 1
  {
    var f := m[r][col] / m[col][col];
    if r == col || f == 0.0 then m[r] else Reduced(m[r], m[col], f, col)
  }

  /** One column: swap in the pivot, and clear the rest unless the pivot is too small. */
  function Pivoted(m: seq<Row>, n: nat, col: nat): (s: seq<Row>)
    requires Augmented(m, n) && col < n
    ensures Augmented(s, n)
  {
    Swapped(m, col, PivotFrom(m, n, col, col, col + 1))
  }

  function Eliminated(m: seq<Row>, n: nat, col: nat): (s: seq<Row>)
    requires Augmented(m, n) && col < n
    ensures Augmented(s, n)
  {
    var p := Pivoted(m, n, col);
    if Abs(p[col][col]) < TINY then p
    else seq(n, r requires 0 <= r < n => Cleared(p, n, col, r))
  }

  function AfterColumns(m: seq<Row>, n: nat, cols: nat): (s: seq<Row>)
    requires Augmented(m, n) && cols <= n
    ensures Augmented(s, n)
  {
    if cols == 0 then m else Eliminated(AfterColumns(m, n, cols - 1), n, cols - 1)
  }

  ghost predicate LargePivot(m: seq<Row>, n: nat, col: nat)
    requires Augmented(m, n) && col < n
  {
    Abs(Pivoted(AfterColumns(m, n, col), n, col)[col][col]) >= TINY
  }

  /** No pivot is skipped for being too small. */
  ghost predicate PivotsLargeEnough(m: seq<Row>, n: nat)
    requires Augmented(m, n)
  {
    forall col: nat {:trigger LargePivot(m, n, col)} :: col < n ==> LargePivot(m, n, col)
  }

  function ReadOff(m: seq<Row>, n: nat): (x: seq<real>)
    requires Augmented(m, n)
    ensures |x| == n
  {
    seq(n, r requires 0 <= r < n => if Abs(m[r][r]) < TINY then 0.0 else m[r][n] / m[r][r])
  }

  /** The augmented matrix of `a x = b`. */
  function Augment(a: seq<Row>, b: seq<real>): (m: seq<Row>)
    requires |a| == |b| && forall r :: 0 <= r < |a| ==> |a[r]| == |b|
    ensures Augmented(m, |b|)
  {
    seq(|b|, r requires 0 <= r < |b| => a[r] + [b[r]])
  }

  // ---- Row operations keep the solutions ----

  /** The first columns of the pivot row are zero, so starting at `col` subtracts the whole row. */
  lemma {:induction false} ReducedDot(row: Row, pivot: Row, f: real, col: nat, x: seq<real>, k: nat)
    requires |row| == |pivot| && k <= |row| && k <= |x|
    requires forall c :: 0 <= c < col && c < |pivot| ==> pivot[c] == 0.0
    ensures Dot(Reduced(row, pivot, f, col), x, k) == Dot(row, x, k) - f * Dot(pivot, x, k)
  {
    if k > 0 {
      ReducedDot(row, pivot, f, col, x, k - 1);
      OneMoreProduct(row, pivot, f, col, x, k);
    }
  }

  lemma OneMoreProduct(row: Row, pivot: Row, f: real, col: nat, x: seq<real>, k: nat)
    requires |row| == |pivot| && 0 < k <= |row| && k <= |x|
    requires k <= col ==> pivot[k - 1] == 0.0
    requires Dot(Reduced(row, pivot, f, col), x, k - 1) == Dot(row, x, k - 1) - f * Dot(pivot, x, k - 1)
    ensures Dot(Reduced(row, pivot, f, col), x, k) == Dot(row, x, k) - f * Dot(pivot, x, k)
  {
    var reduced := Reduced(row, pivot, f, col);
    assert reduced[k - 1] == if k <= col then row[k - 1] else row[k - 1] - f * pivot[k - 1];
    ExtendDot(Dot(reduced, x, k - 1), Dot(row, x, k - 1), Dot(pivot, x, k - 1),
              reduced[k - 1], row[k - 1], pivot[k - 1], f, x[k - 1]);
  }

  lemma ExtendDot(reduced: real, whole: real, d: real, r: real, a: real, p: real, f: real, x: real)
    requires reduced == whole - f * d && (r == a - f * p || (r == a && p == 0.0))
    ensures reduced + r * x == whole + a * x - f * (d + p * x)
  {
    Distribute(a, f, p, x, d);
  }

  lemma Distribute(a: real, f: real, p: real, x: real, d: real)
    ensures (a - f * p) * x - f * d == a * x - f * (d + p * x)
    ensures p == 0.0 ==> a * x - f * d == a * x - f * (d + p * x)
  {
  }

  /** Clearing a row changes its residual by a multiple of the pivot row's. */
  lemma ClearedResidual(m: seq<Row>, n: nat, col: nat, r: nat, x: seq<real>)
    requires Augmented(m, n) && col < n && r < n && r != col && m[col][col] != 0.0 && |x| == n
    requires forall c :: 0 <= c < col ==> m[col][c] == 0.0
    ensures Residual(Cleared(m, n, col, r), x, n)
            == Residual(m[r], x, n) - m[r][col] / m[col][col] * Residual(m[col], x, n)
  {
    var f := m[r][col] / m[col][col];
    if f == 0.0 {
      assert f * Residual(m[col], x, n) == 0.0;
    } else {
      ReducedDot(m[r], m[col], f, col, x, n);
      SubtractTwice(Dot(m[r], x, n), f, Dot(m[col], x, n), m[r][n], m[col][n]);
    }
  }

  lemma SubtractTwice(a: real, f: real, d: real, b: real, e: real)
    ensures (a - f * d) - (b - f * e) == (a - b) - f * (d - e)
  {
  }

  /** Columns before `cols` are cleared but for their pivots, which are large enough. */
  ghost predicate InForm(m: seq<Row>, n: nat, cols: nat)
    requires Augmented(m, n) && cols <= n
  {
    forall c: nat :: c < cols ==> PivotColumn(m, n, c)
  }

  ghost predicate PivotColumn(m: seq<Row>, n: nat, c: nat)
    requires Augmented(m, n) && c < n
  {
    Abs(m[c][c]) >= TINY && forall r :: 0 <= r < n && r != c ==> m[r][c] == 0.0
  }

  lemma PivotedKeepsForm(m: seq<Row>, n: nat, col: nat)
    requires Augmented(m, n) && col < n && InForm(m, n, col)
    ensures InForm(Pivoted(m, n, col), n, col)
  {
    forall c: nat | c < col ensures PivotColumn(Pivoted(m, n, col), n, c) {
      assert PivotColumn(m, n, c);
    }
  }

  lemma ClearedEntry(a: real, d: real)
    requires d != 0.0
    ensures a - a / d * d == 0.0
    ensures a / d == 0.0 ==> a == 0.0
  {
  }

  lemma EliminatedKeepsForm(m: seq<Row>, n: nat, col: nat)
    requires Augmented(m, n) && col < n && InForm(m, n, col)
    requires Abs(Pivoted(m, n, col)[col][col]) >= TINY
    ensures InForm(Eliminated(m, n, col), n, col + 1)
  {
    PivotedKeepsForm(m, n, col);
    forall c: nat | c <= col ensures PivotColumn(Eliminated(m, n, col), n, c) {
      if c < col {
        assert PivotColumn(Pivoted(m, n, col), n, c);
      }
      ColumnIsClear(Pivoted(m, n, col), Eliminated(m, n, col), n, col, c);
    }
  }

  /** Clearing a column makes it a pivot column, and leaves the earlier ones so. */
  lemma ColumnIsClear(p: seq<Row>, s: seq<Row>, n: nat, col: nat, c: nat)
    requires Augmented(p, n) && Augmented(s, n) && c <= col < n && Abs(p[col][col]) >= TINY
    requires forall r :: 0 <= r < n ==> s[r] == Cleared(p, n, col, r)
    requires c < col ==> PivotColumn(p, n, c)
    ensures PivotColumn(s, n, c)
  {
    assert s[c] == Cleared(p, n, col, c);
    forall r | 0 <= r < n && r != c ensures s[r][c] == 0.0 {
      assert s[r] == Cleared(p, n, col, r);
      ClearedEntry(p[r][col], p[col][col]);
    }
  }

  lemma PivotedKeepsSolutions(m: seq<Row>, n: nat, col: nat, x: seq<real>)
    requires Augmented(m, n) && col < n
    ensures Solves(Pivoted(m, n, col), n, x) <==> Solves(m, n, x)
  {
  }

  lemma PivotRowIsClear(m: seq<Row>, n: nat, col: nat)
    requires Augmented(m, n) && col < n && InForm(m, n, col)
    requires Abs(Pivoted(m, n, col)[col][col]) >= TINY
    ensures var row := Pivoted(m, n, col)[col]; row[col] != 0.0 && forall c :: 0 <= c < col ==> row[c] == 0.0
  {
    PivotedKeepsForm(m, n, col);
    var p := Pivoted(m, n, col);
    forall c | 0 <= c < col ensures p[col][c] == 0.0 {
      assert PivotColumn(p, n, c);
    }
  }

  /** Eliminating a column neither loses nor gains a solution. */
  lemma EliminatedKeepsSolutions(m: seq<Row>, n: nat, col: nat, x: seq<real>)
    requires Augmented(m, n) && col < n && InForm(m, n, col)
    requires Abs(Pivoted(m, n, col)[col][col]) >= TINY
    ensures Solves(Eliminated(m, n, col), n, x) <==> Solves(m, n, x)
  {
    var p, s := Pivoted(m, n, col), Eliminated(m, n, col);
    PivotRowIsClear(m, n, col);
    PivotedKeepsSolutions(m, n, col, x);
    assert s[col] == p[col];
    if |x| == n {
      forall r | 0 <= r < n && r != col
        ensures Residual(p[col], x, n) == 0.0 ==> Residual(s[r], x, n) == Residual(p[r], x, n)
      {
        assert s[r] == Cleared(p, n, col, r);
        ClearedKeepsResidual(p, n, col, r, x);
      }
    }
  }

  lemma ClearedKeepsResidual(m: seq<Row>, n: nat, col: nat, r: nat, x: seq<real>)
    requires Augmented(m, n) && col < n && r < n && r != col && m[col][col] != 0.0 && |x| == n
    requires forall c :: 0 <= c < col ==> m[col][c] == 0.0
    ensures Residual(m[col], x, n) == 0.0 ==> Residual(Cleared(m, n, col, r), x, n) == Residual(m[r], x, n)
  {
    ClearedResidual(m, n, col, r, x);
  }

  lemma LastColumnIsCleared(m: seq<Row>, n: nat, col: nat)
    requires Augmented(m, n) && col < n && PivotsLargeEnough(m, n)
    requires InForm(AfterColumns(m, n, col), n, col)
    ensures InForm(AfterColumns(m, n, col + 1), n, col + 1)
  {
    assert LargePivot(m, n, col);
    EliminatedKeepsForm(AfterColumns(m, n, col), n, col);
  }

  lemma {:induction false} ColumnsAreCleared(m: seq<Row>, n: nat, cols: nat)
    requires Augmented(m, n) && cols <= n && PivotsLargeEnough(m, n)
    ensures InForm(AfterColumns(m, n, cols), n, cols)
  {
    if cols > 0 {
      ColumnsAreCleared(m, n, cols - 1);
      LastColumnIsCleared(m, n, cols - 1);
    }
  }

  lemma LastColumnKeepsSolutions(m: seq<Row>, n: nat, cols: nat)
    requires Augmented(m, n) && 0 < cols <= n && PivotsLargeEnough(m, n)
    ensures SolutionsOf(AfterColumns(m, n, cols), n) == SolutionsOf(AfterColumns(m, n, cols - 1), n)
  {
    var col := cols - 1;
    assert LargePivot(m, n, col);
    ColumnsAreCleared(m, n, col);
    var before := AfterColumns(m, n, col);
    forall x ensures Solves(Eliminated(before, n, col), n, x) <==> Solves(before, n, x) {
      EliminatedKeepsSolutions(before, n, col, x);
    }
  }

  lemma {:induction false} ColumnsKeepSolutions(m: seq<Row>, n: nat, cols: nat)
    requires Augmented(m, n) && cols <= n && PivotsLargeEnough(m, n)
    ensures SolutionsOf(AfterColumns(m, n, cols), n) == SolutionsOf(m, n)
  {
    if cols > 0 {
      ColumnsKeepSolutions(m, n, cols - 1);
      LastColumnKeepsSolutions(m, n, cols);
    }
  }

  // ---- Reading off the solution ----

  lemma {:induction false} DiagonalDot(row: Row, x: seq<real>, r: nat, k: nat)
    requires k <= |row| && k <= |x|
    requires forall c :: 0 <= c < k && c != r ==> row[c] == 0.0
    ensures Dot(row, x, k) == if r < k then row[r] * x[r] else 0.0
  {
    if k > 0 {
      DiagonalDot(row, x, r, k - 1);
    }
  }

  lemma DivideOut(d: real, v: real, b: real)
    requires d != 0.0
    ensures d * v - b == 0.0 <==> v == b / d
  {
  }

  /** Zero where the diagonal is too small, and elsewhere what solves the row of a cleared system. */
  ghost predicate ReadsOff(m: seq<Row>, n: nat, x: seq<real>)
    requires Augmented(m, n)
  {
    |x| == n
    && forall r :: 0 <= r < n ==> if Abs(m[r][r]) < 0.000_000_000_001 then x[r] == 0.0 else m[r][r] * x[r] == m[r][n]
  }

  lemma ReadOffRows(m: seq<Row>, n: nat)
    requires Augmented(m, n)
    ensures ReadsOff(m, n, ReadOff(m, n))
  {
    forall r | 0 <= r < n && Abs(m[r][r]) >= TINY ensures m[r][r] * ReadOff(m, n)[r] == m[r][n] {
      DivideOut(m[r][r], ReadOff(m, n)[r], m[r][n]);
    }
  }

  /** A cleared system has exactly the solution read off its diagonal. */
  lemma ReadOffIsTheSolution(m: seq<Row>, n: nat, x: seq<real>)
    requires Augmented(m, n) && InForm(m, n, n)
    ensures Solves(m, n, x) <==> x == ReadOff(m, n)
  {
    if |x| == n {
      forall r | 0 <= r < n ensures Residual(m[r], x, n) == 0.0 <==> x[r] == ReadOff(m, n)[r] {
        forall c | 0 <= c < n && c != r ensures m[r][c] == 0.0 {
          assert PivotColumn(m, n, c);
        }
        assert PivotColumn(m, n, r);
        DiagonalDot(m[r], x, r, n);
        DivideOut(m[r][r], x[r], m[r][n]);
      }
    }
  }

  /** Whenever no pivot is skipped, what elimination reads off is the system's one and only solution. */
  lemma SolutionIsUnique(m: seq<Row>, n: nat, x: seq<real>)
    requires Augmented(m, n) && PivotsLargeEnough(m, n)
    ensures Solves(m, n, x) <==> x == ReadOff(AfterColumns(m, n, n), n)
  {
    ColumnsAreCleared(m, n, n);
    ColumnsKeepSolutions(m, n, n);
    assert x in SolutionsOf(AfterColumns(m, n, n), n) <==> x in SolutionsOf(m, n);
    ReadOffIsTheSolution(AfterColumns(m, n, n), n, x);
  }

  /** A pivot is skipped only when every candidate in its column is as small. */
  lemma {:induction false} PivotIsLargest(m: seq<Row>, n: nat, col: nat, best: nat, r: nat)
    requires Augmented(m, n) && col <= best < n && col < r <= n
    requires forall k :: col <= k < r ==> Abs(m[k][col]) <= Abs(m[best][col])
    ensures forall k :: col <= k < n ==> Abs(m[k][col]) <= Abs(m[PivotFrom(m, n, col, best, r)][col])
    decreases n - r
  {
    if r < n {
      PivotIsLargest(m, n, col, if Abs(m[r][col]) > Abs(m[best][col]) then r else best, r + 1);
    }
  }

  // ---- The in-place algorithm ----

  method FindPivot(m: seq<Row>, n: nat, col: nat) returns (pivot: nat)
    requires Augmented(m, n) && col < n
    ensures pivot == PivotFrom(m, n, col, col, col + 1)
    ensures col <= pivot < n && forall k :: col <= k < n ==> Abs(m[k][col]) <= Abs(m[pivot][col])
  {
    pivot := col;
    for r := col + 1 to n
      invariant col <= pivot < n
      invariant PivotFrom(m, n, col, pivot, r) == PivotFrom(m, n, col, col, col + 1)
    {
      if Abs(m[r][col]) > Abs(m[pivot][col]) {
        pivot := r;
      }
    }
    PivotIsLargest(m, n, col, col, col + 1);
  }

  method ClearRow(row: Row, pivot: Row, f: real, col: nat) returns (r: Row)
    requires |row| == |pivot| && col <= |row|
    ensures r == Reduced(row, pivot, f, col)
  {
    r := row;
    for c := col to |row|
      invariant |r| == |row|
      invariant forall k :: 0 <= k < |row| ==> r[k] == if col <= k < c then row[k] - f * pivot[k] else row[k]
    {
      r := r[c := r[c] - f * pivot[c]];
    }
  }

  method ClearColumn(m: seq<Row>, n: nat, col: nat) returns (s: seq<Row>)
    requires Augmented(m, n) && col < n && m[col][col] != 0.0
    ensures s == seq(n, r requires 0 <= r < n => Cleared(m, n, col, r))
  {
    s := m;
    var d, pivot := m[col][col], m[col];
    for r := 0 to n
      invariant |s| == n
      invariant forall k :: 0 <= k < n ==> s[k] == if k < r then Cleared(m, n, col, k) else m[k]
    {
      if r != col {
        var f := s[r][col] / d;
        if f != 0.0 {
          var row := ClearRow(s[r], pivot, f, col);
          s := s[r := row];
        }
      }
    }
  }

  /** One round of the outer loop. */
  method EliminateColumn(m: seq<Row>, n: nat, col: nat) returns (s: seq<Row>)
    requires Augmented(m, n) && col < n
    ensures s == Eliminated(m, n, col)
  {
    var pivot := FindPivot(m, n, col);
    s := m[col := m[pivot]][pivot := m[col]];
    if Abs(s[col][col]) >= TINY {
      s := ClearColumn(s, n, col);
    }
  }

  /** `solve_spd`: when no pivot is skipped, the one vector with `a x = b`. */
  method SolveSpd(a: seq<Row>, b: seq<real>) returns (x: seq<real>)
    requires |a| == |b| && forall r :: 0 <= r < |a| ==> |a[r]| == |b|
    ensures x == ReadOff(AfterColumns(Augment(a, b), |b|, |b|), |b|)
    ensures ReadsOff(AfterColumns(Augment(a, b), |b|, |b|), |b|, x)
    ensures PivotsLargeEnough(Augment(a, b), |b|) ==> forall y :: Solves(Augment(a, b), |b|, y) <==> y == x
  {
    var n := |b|;
    var m := Augment(a, b);
    for col := 0 to n
      invariant Augmented(m, n) && m == AfterColumns(Augment(a, b), n, col)
    {
      m := EliminateColumn(m, n, col);
    }
    x := ReadOff(m, n);
    ReadOffRows(m, n);
    if PivotsLargeEnough(Augment(a, b), n) {
      forall y { SolutionIsUnique(Augment(a, b), n, y); }
    }
  }
}
