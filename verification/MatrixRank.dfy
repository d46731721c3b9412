/** Gauss-Jordan rank of a composition matrix, as the CatMAP gas contract uses it.

    Arithmetic is over `real` and a pivot is any entry that is not exactly zero. */
module MatrixRank {

  type Vector = seq<real>
  type Matrix = seq<Vector>

  ghost predicate Rectangular(m: Matrix, columns: nat) {
    forall i :: 0 <= i < |m| ==> |m[i]| == columns
  }

  /** The first n terms of the inner product of a row and a vector. */
  ghost function DotTo(r: Vector, x: Vector, n: nat): real
    requires n <= |r| && n <= |x|
  {
    if n == 0 then 0.0 else DotTo(r, x, n - 1) + r[n - 1] * x[n - 1]
  }

  ghost function Dot(r: Vector, x: Vector): real
    requires |r| == |x|
  {
    DotTo(r, x, |r|)
  }

  /** A.x = 0 */
  ghost predicate InKernel(m: Matrix, columns: nat, x: Vector)
    requires Rectangular(m, columns)
  {
    |x| == columns && forall i :: 0 <= i < |m| ==> Dot(m[i], x) == 0.0
  }

  ghost predicate IsZero(x: Vector) {
    forall k :: 0 <= k < |x| ==> x[k] == 0.0
  }

  /** The columns of A are linearly independent. */
  ghost predicate TrivialKernel(m: Matrix, columns: nat)
    requires Rectangular(m, columns)
  {
    forall x :: InKernel(m, columns, x) ==> IsZero(x)
  }

  ghost predicate SameKernel(a: Matrix, b: Matrix, columns: nat)
    requires Rectangular(a, columns) && Rectangular(b, columns)
  {
    forall x :: InKernel(a, columns, x) <==> InKernel(b, columns, x)
  }

  /** Column c is no linear combination of the columns before it. */
  ghost predicate Independent(m: Matrix, columns: nat, c: nat)
    requires Rectangular(m, columns) && c < columns
  {
    forall x :: InKernel(m, columns, x) && (forall k :: c < k < columns ==> x[k] == 0.0) ==> x[c] == 0.0
  }

  ghost function IndependentColumns(m: Matrix, columns: nat): set<nat>
    requires Rectangular(m, columns)
  {
    set c: nat | c < columns && Independent(m, columns, c)
  }

  // ---- row operations -----------------------------------------------------

  function Scaled(r: Vector, divisor: real): (s: Vector)
    requires divisor != 0.0
    ensures |s| == |r|
  {
    seq(|r|, k requires 0 <= k < |r| => r[k] / divisor)
  }

  function Reduced(r: Vector, factor: real, reference: Vector): (s: Vector)
    requires |r| == |reference|
    ensures |s| == |r|
  {
    seq(|r|, k requires 0 <= k < |r| => r[k] - factor * reference[k])
  }

  lemma {:induction false} DotScaled(r: Vector, divisor: real, x: Vector, n: nat)
    requires divisor != 0.0 && |r| == |x| && n <= |r|
    ensures DotTo(Scaled(r, divisor), x, n) == DotTo(r, x, n) / divisor
  {
    if n > 0 {
      DotScaled(r, divisor, x, n - 1);
      QuotientOfProduct(r[n - 1], x[n - 1], divisor);
      QuotientOfSum(DotTo(r, x, n - 1), r[n - 1] * x[n - 1], divisor);
    }
  }

  lemma QuotientOfProduct(a: real, b: real, d: real)
    requires d != 0.0
    ensures (a / d) * b == (a * b) / d
  {
  }

  lemma QuotientOfSum(a: real, b: real, d: real)
    requires d != 0.0
    ensures (a + b) / d == a / d + b / d
  {
  }

  lemma {:induction false} DotReduced(r: Vector, factor: real, s: Vector, x: Vector, n: nat)
    requires |r| == |s| == |x| && n <= |r|
    ensures DotTo(Reduced(r, factor, s), x, n) == DotTo(r, x, n) - factor * DotTo(s, x, n)
  {
    if n > 0 {
      DotReduced(r, factor, s, x, n - 1);
      assert (r[n - 1] - factor * s[n - 1]) * x[n - 1] == r[n - 1] * x[n - 1] - factor * (s[n - 1] * x[n - 1]);
      assert factor * DotTo(s, x, n) == factor * DotTo(s, x, n - 1) + factor * (s[n - 1] * x[n - 1]);
    }
  }

  lemma SwapKeepsKernel(m: Matrix, i: nat, j: nat, columns: nat)
    requires Rectangular(m, columns) && i < |m| && j < |m|
    ensures Rectangular(m[i := m[j]][j := m[i]], columns)
    ensures SameKernel(m, m[i := m[j]][j := m[i]], columns)
  {
    var m' := m[i := m[j]][j := m[i]];
    forall x ensures InKernel(m, columns, x) <==> InKernel(m', columns, x) {
      assert m[i] == m'[j] && m[j] == m'[i];
      assert forall k :: 0 <= k < |m| && k != i && k != j ==> m[k] == m'[k];
    }
  }

  lemma ScaleKeepsKernel(m: Matrix, i: nat, divisor: real, columns: nat)
    requires Rectangular(m, columns) && i < |m| && divisor != 0.0
    ensures Rectangular(m[i := Scaled(m[i], divisor)], columns)
    ensures SameKernel(m, m[i := Scaled(m[i], divisor)], columns)
  {
    var m' := m[i := Scaled(m[i], divisor)];
    forall x ensures InKernel(m, columns, x) <==> InKernel(m', columns, x) {
      if |x| == columns {
        DotScaled(m[i], divisor, x, columns);
        assert Dot(m'[i], x) == Dot(m[i], x) / divisor;
        assert forall k :: 0 <= k < |m| && k != i ==> m[k] == m'[k];
      }
    }
  }

  lemma ReduceKeepsKernel(m: Matrix, i: nat, p: nat, factor: real, columns: nat)
    requires Rectangular(m, columns) && i < |m| && p < |m| && i != p
    ensures Rectangular(m[i := Reduced(m[i], factor, m[p])], columns)
    ensures SameKernel(m, m[i := Reduced(m[i], factor, m[p])], columns)
  {
    var m' := m[i := Reduced(m[i], factor, m[p])];
    forall x ensures InKernel(m, columns, x) <==> InKernel(m', columns, x) {
      if |x| == columns {
        DotReduced(m[i], factor, m[p], x, columns);
        assert Dot(m'[i], x) == Dot(m[i], x) - factor * Dot(m[p], x);
        assert forall k :: 0 <= k < |m| && k != i ==> m[k] == m'[k];
      }
    }
  }

  // ---- reduced echelon form -------------------------------------------------

  /** Row i has its pivot in column pivots[i]; pivot columns are unit columns. */
  ghost predicate UnitPivots(m: Matrix, pivots: seq<nat>, columns: nat) {
    && Rectangular(m, columns)
    && |pivots| <= |m|
    && (forall i :: 0 <= i < |pivots| ==> pivots[i] < columns)
    && (forall i, j :: 0 <= i < j < |pivots| ==> pivots[i] < pivots[j])
    && (forall i :: 0 <= i < |pivots| ==> m[i][pivots[i]] == 1.0)
    && (forall i, j :: 0 <= i < |m| && 0 <= j < |pivots| && i != j ==> m[i][pivots[j]] == 0.0)
  }

  /** Below the pivot rows every column before `column` is empty. */
  ghost predicate Echelon(m: Matrix, pivots: seq<nat>, column: nat, columns: nat) {
    && UnitPivots(m, pivots, columns)
    && column <= columns
    && (forall i :: 0 <= i < |pivots| ==> pivots[i] < column)
    && (forall i, c :: |pivots| <= i < |m| && 0 <= c < column ==> m[i][c] == 0.0)
    && (forall i, c :: 0 <= i < |pivots| && 0 <= c < pivots[i] ==> m[i][c] == 0.0)
  }

  lemma {:induction false} DotOfZeros(r: Vector, x: Vector, n: nat)
    requires n <= |r| && n <= |x|
    requires forall k :: 0 <= k < n ==> r[k] * x[k] == 0.0
    ensures DotTo(r, x, n) == 0.0
  {
    if n > 0 { DotOfZeros(r, x, n - 1); }
  }

  lemma {:induction false} DotOfOne(r: Vector, x: Vector, a: nat, n: nat)
    requires a < n <= |r| && n <= |x|
    requires forall k :: 0 <= k < n && k != a ==> r[k] * x[k] == 0.0
    ensures DotTo(r, x, n) == r[a] * x[a]
  {
    if a == n - 1 { DotOfZeros(r, x, n - 1); } else { DotOfOne(r, x, a, n - 1); }
  }

  lemma {:induction false} DotOfTwo(r: Vector, x: Vector, a: nat, b: nat, n: nat)
    requires a < n && b < n <= |r| && n <= |x| && a != b
    requires forall k :: 0 <= k < n && k != a && k != b ==> r[k] * x[k] == 0.0
    ensures DotTo(r, x, n) == r[a] * x[a] + r[b] * x[b]
  {
    if a == n - 1 {
      DotOfOne(r, x, b, n - 1);
    } else if b == n - 1 {
      DotOfOne(r, x, a, n - 1);
    } else {
      DotOfTwo(r, x, a, b, n - 1);
    }
  }

  lemma PivotColumnIsIndependent(m: Matrix, pivots: seq<nat>, column: nat, columns: nat, i: nat)
    requires Echelon(m, pivots, column, columns) && i < |pivots|
    ensures Independent(m, columns, pivots[i])
  {
    var c := pivots[i];
    forall x | InKernel(m, columns, x) && (forall k :: c < k < columns ==> x[k] == 0.0)
      ensures x[c] == 0.0
    {
      DotOfOne(m[i], x, c, columns);
      assert Dot(m[i], x) == x[c];
    }
  }

  /** The kernel vector that a free column c gives. */
  ghost function FreeVector(m: Matrix, pivots: seq<nat>, c: nat, columns: nat): Vector
    requires UnitPivots(m, pivots, columns) && c < columns
  {
    seq(columns, k requires 0 <= k < columns =>
      if k == c then 1.0
      else if k in pivots then
        var i: nat :| i < |pivots| && pivots[i] == k;
        0.0 - m[i][c]
      else 0.0)
  }

  lemma FreeVectorEntries(m: Matrix, pivots: seq<nat>, c: nat, columns: nat)
    requires UnitPivots(m, pivots, columns) && c < columns && c !in pivots
    ensures FreeVector(m, pivots, c, columns)[c] == 1.0
    ensures forall i :: 0 <= i < |pivots| ==> FreeVector(m, pivots, c, columns)[pivots[i]] == 0.0 - m[i][c]
    ensures forall k :: 0 <= k < columns && k != c && k !in pivots ==> FreeVector(m, pivots, c, columns)[k] == 0.0
  {
    forall i | 0 <= i < |pivots| ensures FreeVector(m, pivots, c, columns)[pivots[i]] == 0.0 - m[i][c] {
      assert forall j :: 0 <= j < |pivots| && pivots[j] == pivots[i] ==> j == i;
    }
  }

  /** Away from the free column and the row's own pivot, either the entry or the coordinate is zero. */
  lemma OtherTermsVanish(m: Matrix, pivots: seq<nat>, column: nat, columns: nat, x: Vector, i: nat, k: nat, c: nat)
    requires Echelon(m, pivots, column, columns) && i < |m| && |x| == columns && k < columns && k != c
    requires i < |pivots| ==> k != pivots[i]
    requires k !in pivots ==> x[k] == 0.0
    ensures m[i][k] * x[k] == 0.0
  {
    if k in pivots {
      var j :| 0 <= j < |pivots| && pivots[j] == k;
      assert m[i][pivots[j]] == 0.0;
    }
  }

  lemma FreeVectorSolvesRow(m: Matrix, pivots: seq<nat>, column: nat, columns: nat, c: nat, x: Vector, i: nat)
    requires Echelon(m, pivots, column, columns) && c < columns && c !in pivots && i < |m|
    requires column == columns || |pivots| == |m|
    requires |x| == columns && x[c] == 1.0
    requires forall j :: 0 <= j < |pivots| ==> x[pivots[j]] == 0.0 - m[j][c]
    requires forall k :: 0 <= k < columns && k != c && k !in pivots ==> x[k] == 0.0
    ensures Dot(m[i], x) == 0.0
  {
    forall k | 0 <= k < columns && k != c && (i >= |pivots| || k != pivots[i])
      ensures m[i][k] * x[k] == 0.0
    {
      OtherTermsVanish(m, pivots, column, columns, x, i, k, c);
    }
    if i < |pivots| {
      DotOfTwo(m[i], x, pivots[i], c, columns);
    } else {
      DotOfZeros(m[i], x, columns);
    }
  }

  lemma FreeColumnIsDependent(m: Matrix, pivots: seq<nat>, column: nat, columns: nat, c: nat)
    requires Echelon(m, pivots, column, columns) && c < columns && c !in pivots
    requires column == columns || |pivots| == |m|
    ensures !Independent(m, columns, c)
  {
    var x := FreeVector(m, pivots, c, columns);
    FreeVectorEntries(m, pivots, c, columns);
    forall i | 0 <= i < |m| ensures Dot(m[i], x) == 0.0 {
      FreeVectorSolvesRow(m, pivots, column, columns, c, x, i);
    }
    forall k | c < k < columns ensures x[k] == 0.0 {
      if k in pivots {
        var j :| 0 <= j < |pivots| && pivots[j] == k;
        assert m[j][c] == 0.0;
      }
    }
    assert InKernel(m, columns, x);
  }

  ghost function Elements(pivots: seq<nat>): set<nat> {
    set i | 0 <= i < |pivots| :: pivots[i]
  }

  lemma {:induction false} DistinctCount(pivots: seq<nat>)
    requires forall i, j :: 0 <= i < j < |pivots| ==> pivots[i] < pivots[j]
    ensures |Elements(pivots)| == |pivots|
  {
    if |pivots| > 0 {
      var init := pivots[..|pivots| - 1];
      DistinctCount(init);
      assert Elements(pivots) == Elements(init) + {pivots[|pivots| - 1]};
    }
  }

  /** In echelon form the pivots are exactly the independent columns. */
  lemma PivotsAreTheIndependentColumns(m: Matrix, pivots: seq<nat>, column: nat, columns: nat)
    requires Echelon(m, pivots, column, columns)
    requires column == columns || |pivots| == |m|
    ensures |IndependentColumns(m, columns)| == |pivots|
  {
    forall c: nat | c < columns ensures Independent(m, columns, c) <==> c in pivots {
      if c in pivots {
        var i :| 0 <= i < |pivots| && pivots[i] == c;
        PivotColumnIsIndependent(m, pivots, column, columns, i);
      } else {
        FreeColumnIsDependent(m, pivots, column, columns, c);
      }
    }
    assert IndependentColumns(m, columns) == Elements(pivots);
    DistinctCount(pivots);
  }

  lemma SameKernelSameColumns(a: Matrix, b: Matrix, columns: nat)
    requires Rectangular(a, columns) && Rectangular(b, columns) && SameKernel(a, b, columns)
    ensures IndependentColumns(a, columns) == IndependentColumns(b, columns)
  {
    forall c: nat | c < columns ensures Independent(a, columns, c) <==> Independent(b, columns, c) {
    }
  }

  ghost function Below(n: nat): (s: set<nat>)
    ensures forall c: nat :: c in s <==> c < n
    ensures |s| == n
  {
    if n == 0 then {} else Below(n - 1) + {n - 1}
  }

  lemma {:induction false} IndependentColumnsForceZero(m: Matrix, columns: nat, x: Vector, n: nat)
    requires Rectangular(m, columns) && InKernel(m, columns, x) && n <= columns
    requires forall c :: 0 <= c < columns ==> Independent(m, columns, c)
    ensures forall k :: n <= k < columns ==> x[k] == 0.0
    decreases columns - n
  {
    if n < columns {
      IndependentColumnsForceZero(m, columns, x, n + 1);
      assert Independent(m, columns, n);
    }
  }

  /** What the gas reference-set check relies on: full column rank means only x = 0 solves A.x = 0. */
  lemma FullRankIff(m: Matrix, columns: nat)
    requires Rectangular(m, columns)
    ensures |IndependentColumns(m, columns)| == columns <==> TrivialKernel(m, columns)
  {
    var independent := IndependentColumns(m, columns);
    assert independent <= Below(columns);
    if |independent| == columns {
      SubsetOfSameSize(independent, Below(columns));
      forall c | 0 <= c < columns ensures Independent(m, columns, c) {
        assert c in independent;
      }
      forall x | InKernel(m, columns, x) ensures IsZero(x) {
        IndependentColumnsForceZero(m, columns, x, 0);
      }
    }
    if TrivialKernel(m, columns) {
      assert independent == Below(columns);
    }
  }

  lemma SubsetOfSameSize(a: set<nat>, b: set<nat>)
    requires a <= b && |a| == |b|
    ensures a == b
  {
    if x :| x in b && x !in a {
      assert a <= b - {x};
      SubsetNotLarger(a, b - {x});
    }
  }

  lemma {:induction false} SubsetNotLarger(a: set<nat>, b: set<nat>)
    requires a <= b
    ensures |a| <= |b|
  {
    if x :| x in a { SubsetNotLarger(a - {x}, b - {x}); }
  }

  // ---- the algorithm --------------------------------------------------------

  /** The first row at or below `from` with a non-zero entry in this column. */
  method FindPivot(m: Matrix, from: nat, column: nat, columns: nat) returns (pivot: nat)
    requires Rectangular(m, columns) && column < columns && from <= |m|
    ensures from <= pivot <= |m|
    ensures pivot < |m| ==> m[pivot][column] != 0.0
    ensures forall i :: from <= i < pivot ==> m[i][column] == 0.0
  {
    pivot := from;
    while pivot < |m| && m[pivot][column] == 0.0
      invariant from <= pivot <= |m|
      invariant forall i :: from <= i < pivot ==> m[i][column] == 0.0
    {
      pivot := pivot + 1;
    }
  }

  /** Clears a unit column everywhere except in its pivot row. */
  method Eliminate(m0: Matrix, rank: nat, column: nat, columns: nat, ghost pivots: seq<nat>)
    returns (m: Matrix)
    requires UnitPivots(m0, pivots, columns) && |pivots| == rank < |m0| && column < columns
    requires m0[rank][column] == 1.0
    requires forall c :: 0 <= c < column ==> m0[rank][c] == 0.0
    requires forall j :: 0 <= j < |pivots| ==> pivots[j] < column
    ensures UnitPivots(m, pivots, columns) && |m| == |m0| && m[rank] == m0[rank]
    ensures SameKernel(m0, m, columns)
    ensures forall i :: 0 <= i < |m| && i != rank ==> m[i][column] == 0.0
    ensures forall i, c :: 0 <= i < |m| && 0 <= c < column ==> m[i][c] == m0[i][c]
  {
    m := m0;
    var index := 0;
    while index < |m|
      invariant index <= |m| == |m0|
      invariant Rectangular(m, columns)
      invariant SameKernel(m0, m, columns)
      invariant m[rank] == m0[rank]
      invariant forall i :: 0 <= i < index && i != rank ==> m[i][column] == 0.0
      invariant forall i, c :: 0 <= i < |m| && 0 <= c < column ==> m[i][c] == m0[i][c]
    {
      if index != rank {
        var factor := m[index][column];
        if factor != 0.0 {
          ReduceKeepsKernel(m, index, rank, factor, columns);
          m := m[index := Reduced(m[index], factor, m[rank])];
        }
      }
      index := index + 1;
    }
  }

  /** Rows below the pivots may change places. */
  lemma SwapKeepsEchelon(m: Matrix, pivots: seq<nat>, column: nat, columns: nat, pivot: nat)
    requires Echelon(m, pivots, column, columns) && |pivots| <= pivot < |m|
    ensures Echelon(m[|pivots| := m[pivot]][pivot := m[|pivots|]], pivots, column, columns)
  {
  }

  lemma ScaleKeepsEchelon(m: Matrix, pivots: seq<nat>, column: nat, columns: nat, divisor: real)
    requires Echelon(m, pivots, column, columns) && |pivots| < |m| && divisor != 0.0
    ensures Echelon(m[|pivots| := Scaled(m[|pivots|], divisor)], pivots, column, columns)
  {
  }

  /** Brings the found pivot row up, makes its pivot one and clears the column. */
  method PivotOn(m0: Matrix, rank: nat, pivot: nat, column: nat, columns: nat, ghost pivots: seq<nat>)
    returns (m: Matrix)
    requires Echelon(m0, pivots, column, columns) && column < columns
    requires |pivots| == rank <= pivot < |m0| && m0[pivot][column] != 0.0
    ensures |m| == |m0| && Echelon(m, pivots + [column], column + 1, columns)
    ensures SameKernel(m0, m, columns)
  {
    SwapKeepsKernel(m0, rank, pivot, columns);
    SwapKeepsEchelon(m0, pivots, column, columns, pivot);
    var swapped := m0[rank := m0[pivot]][pivot := m0[rank]];
    var divisor := swapped[rank][column];
    ScaleKeepsKernel(swapped, rank, divisor, columns);
    ScaleKeepsEchelon(swapped, pivots, column, columns, divisor);
    var scaled := swapped[rank := Scaled(swapped[rank], divisor)];
    m := Eliminate(scaled, rank, column, columns, pivots);
  }

  /** `_matrix_rank`: the number of columns that no combination of earlier columns gives. */
  method Rank(rows: Matrix, columns: nat) returns (rank: nat)
    requires Rectangular(rows, columns)
    ensures rank == |IndependentColumns(rows, columns)|
    ensures rank <= |rows|
    ensures rank == columns <==> TrivialKernel(rows, columns)
  {
    var m := rows;
    ghost var pivots: seq<nat> := [];
    rank := 0;
    var column := 0;
    while column < columns
      invariant rank == |pivots| <= column
      invariant |m| == |rows|
      invariant Echelon(m, pivots, column, columns)
      invariant SameKernel(rows, m, columns)
    {
      var pivot := FindPivot(m, rank, column, columns);
      if pivot < |m| {
        m := PivotOn(m, rank, pivot, column, columns, pivots);
        pivots := pivots + [column];
        rank := rank + 1;
        column := column + 1;
        if rank == |m| {
          break;
        }
      } else {
        column := column + 1;
      }
    }
    PivotsAreTheIndependentColumns(m, pivots, column, columns);
    SameKernelSameColumns(rows, m, columns);
    FullRankIff(rows, columns);
  }
}
