/**
  The `sum_matrices` helper of the test suite: it compares the row counts and the
  widths of the first rows, throws `std::invalid_argument` on a mismatch before it
  touches the output, and otherwise resizes the output to |A| rows and writes
  C[i][j] = A[i][j] + B[i][j] for every row i and every column j below the width
  of A's first row.

  A call is modelled as a function from the two operands and the output's contents
  on entry to how the call ended and the output's contents on exit.
 */
module SumHelper {
  import opened Vectors
  import opened Matrices

  datatype Error = InvalidArgument(message: string)

  /** The exception `sum_matrices` throws when the sizes differ. */
  const SizeMismatch: Error := InvalidArgument("Matrices must have the same size")

  /** How a call ended, with the output matrix as it is afterwards. */
  datatype SumCall = Returned(c: Matrix) | Threw(error: Error, c: Matrix)

  /** The size test of `sum_matrices`: same number of rows, and first rows of the
      same width. Only the first rows are compared. */
  predicate SameSize(a: Matrix, b: Matrix)
    requires |a| == |b| ==> |a| > 0
  {
    |a| == |b| && |a[0]| == |b[0]|
  }

  /** Every entry the loops read or write exists: each row of A and B, and each row
      of C that survives the resize, is at least as wide as A's first row. */
  predicate Readable(a: Matrix, b: Matrix, c: Matrix)
    requires |a| > 0
  {
    forall i :: 0 <= i < |a| ==>
      && |a[0]| <= |a[i]|
      && (i < |b| ==> |a[0]| <= |b[i]|)
      && (i < |c| ==> |a[0]| <= |c[i]|)
  }

  /** `C.resize(n, fill)`: keeps the first n rows of C (all of them if there are
      fewer) and appends copies of `fill` up to n rows. */
  function Resize(c: Matrix, n: nat, fill: Vector): (r: Matrix)
    ensures |r| == n
    ensures forall i :: 0 <= i < n && i < |c| ==> r[i] == c[i]
    ensures forall i :: |c| <= i < n ==> r[i] == fill
  {
    seq(n, i requires 0 <= i < n => if i < |c| then c[i] else fill)
  }

  /** One call `sum_matrices(A, B, C)` where C holds `c` on entry. Reading A[0] on an
      empty A is undefined, hence the first precondition (an empty A with a non-empty
      B throws before A[0] is read). */
  function SumMatrices(a: Matrix, b: Matrix, c: Matrix): (r: SumCall)
    requires |a| == |b| ==> |a| > 0
    requires SameSize(a, b) ==> Readable(a, b, c)
    ensures r.Threw? <==> !SameSize(a, b)
    ensures r.Threw? ==> r.error == SizeMismatch && r.c == c
    ensures r.Returned? ==> |r.c| == |a|
    ensures r.Returned? ==>
      forall i :: 0 <= i < |a| ==> |r.c[i]| == (if i < |c| then |c[i]| else |a[0]|)
    ensures r.Returned? ==>
      forall i, j :: 0 <= i < |a| && 0 <= j < |a[0]| ==> r.c[i][j] == a[i][j] + b[i][j]
    ensures r.Returned? ==>
      forall i, j :: 0 <= i < |a| && i < |c| && |a[0]| <= j < |c[i]| ==> r.c[i][j] == c[i][j]
  {
    if !SameSize(a, b) then
      Threw(SizeMismatch, c)
    else
      var w := |a[0]|;
      var resized := Resize(c, |a|, Zeros(w));
      Returned(seq(|a|, i requires 0 <= i < |a| =>
        seq(|resized[i]|, j requires 0 <= j < |resized[i]| =>
          if j < w then a[i][j] + b[i][j] else resized[i][j])))
  }

  /** For two m x n matrices, `sum_matrices` returns normally and leaves in C exactly
      their entrywise sum, whether C comes in empty or already holds rows of width n
      (the suite passes both). */
  lemma SumMatricesIsAdd(a: Matrix, b: Matrix, c: Matrix, m: nat, n: nat)
    requires IsMatrix(a, m, n) && IsMatrix(b, m, n) && m > 0
    requires IsMatrix(c, |c|, n)
    ensures SumMatrices(a, b, c) == Returned(Add(a, b, m, n))
  {
    var r := SumMatrices(a, b, c);
    assert r.Returned?;
    assert forall i :: 0 <= i < m ==> r.c[i] == Add(a, b, m, n)[i];
  }

  /** Conversely, two matrices whose row counts differ, or whose first rows differ in
      width, are rejected whatever the output holds, and the output is left as it was.
      One operand may be empty: the row counts then differ and A[0] is never read. */
  lemma SumMatricesRejectsMismatch(a: Matrix, b: Matrix, c: Matrix, m: nat, n: nat, m': nat, n': nat)
    requires IsMatrix(a, m, n) && IsMatrix(b, m', n') && (m > 0 || m' > 0)
    requires m != m' || n != n'
    ensures SumMatrices(a, b, c) == Threw(SizeMismatch, c)
  {
  }
}
