/**
  Dense integer matrices as sequences of rows, the rectangular-shape predicate, and the
  operations the test suite combines: entrywise sum, the sum-of-products product, the
  identity and the zero matrix.
 */
module Matrices {
  import opened Vectors

  type Matrix = seq<seq<int>>

  /** `a` has exactly m rows, each with exactly n entries. */
  predicate IsMatrix(a: Matrix, m: nat, n: nat) {
    |a| == m && forall i :: 0 <= i < m ==> |a[i]| == n
  }

  /** Column j of `a`, read top to bottom. */
  function Column(a: Matrix, j: nat): (r: Vector)
    requires forall i :: 0 <= i < |a| ==> j < |a[i]|
    ensures |r| == |a|
    ensures forall i :: 0 <= i < |a| ==> r[i] == a[i][j]
  {
    seq(|a|, i requires 0 <= i < |a| => a[i][j])
  }

  /** Entrywise sum of two m x n matrices: row i is the vector sum of the rows i. */
  function Add(a: Matrix, b: Matrix, m: nat, n: nat): (r: Matrix)
    requires IsMatrix(a, m, n) && IsMatrix(b, m, n)
    ensures IsMatrix(r, m, n)
    ensures forall i, j :: 0 <= i < m && 0 <= j < n ==> r[i][j] == a[i][j] + b[i][j]
  {
    seq(m, i requires 0 <= i < m => VAdd(a[i], b[i]))
  }

  /** The row vector u (length n) times the n x p matrix b. */
  function VecMat(u: Vector, b: Matrix, p: nat): (r: Vector)
    requires IsMatrix(b, |u|, p)
    ensures |r| == p
  {
    seq(p, j requires 0 <= j < p => Dot(u, Column(b, j)))
  }

  /** The matrix b (each row of length |v|) times the column vector v. */
  function MatVec(b: Matrix, v: Vector): (r: Vector)
    requires forall l :: 0 <= l < |b| ==> |b[l]| == |v|
    ensures |r| == |b|
  {
    seq(|b|, l requires 0 <= l < |b| => Dot(b[l], v))
  }

  /** The product of an m x n matrix and an n x p matrix: row i of the result is
      row i of `a` times `b`. The dimensions are those of the operands, as the
      precondition pins them. */
  function Multiply(a: Matrix, b: Matrix, m: nat, n: nat, p: nat): (r: Matrix)
    requires IsMatrix(a, m, n) && IsMatrix(b, n, p)
    ensures IsMatrix(r, m, p)
    ensures forall i, j :: 0 <= i < m && 0 <= j < p ==> r[i][j] == Dot(a[i], Column(b, j))
  {
    seq(m, i requires 0 <= i < m => VecMat(a[i], b, p))
  }

  /** The n x n identity matrix: its row i is the unit vector e_i. */
  function Identity(n: nat): (r: Matrix)
    ensures IsMatrix(r, n, n)
    ensures forall i, j :: 0 <= i < n && 0 <= j < n ==> r[i][j] == (if i == j then 1 else 0)
  {
    seq(n, i requires 0 <= i < n => Unit(n, i))
  }

  /** The m x n matrix of zeros. */
  function ZeroMatrix(m: nat, n: nat): (r: Matrix)
    ensures IsMatrix(r, m, n)
    ensures forall i, j :: 0 <= i < m && 0 <= j < n ==> r[i][j] == 0
  {
    seq(m, i => Zeros(n))
  }

  /** The identity is symmetric, so its column j is the unit vector e_j. */
  lemma IdentityColumn(n: nat, j: nat)
    requires j < n
    ensures Column(Identity(n), j) == Unit(n, j)
  {
  }

  /** Every column of a zero matrix is a zero vector. */
  lemma ZeroColumn(m: nat, n: nat, j: nat)
    requires j < n
    ensures Column(ZeroMatrix(m, n), j) == Zeros(m)
  {
  }
}
