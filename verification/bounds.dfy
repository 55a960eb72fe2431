/**
  Magnitude bounds for the product. The model computes with unbounded integers; the
  C++ code accumulates in 32-bit `int`. These lemmas give a sufficient condition under
  which every value the triple loop computes (each term A[i][k]*B[k][j] and each
  running sum) lies in the 32-bit range, so that the two agree.
 */
module Bounds {
  import opened Vectors
  import opened Matrices

  const Int32Min: int := -0x8000_0000
  const Int32Max: int := 0x7fff_ffff

  predicate InInt32(x: int) {
    Int32Min <= x <= Int32Max
  }

  function Abs(x: int): (r: nat)
    ensures r == x || r == -x
  {
    if x < 0 then -x else x
  }

  /** Every entry of `a` has magnitude at most bound. */
  predicate EntriesBounded(a: Matrix, bound: nat) {
    forall i, j :: 0 <= i < |a| && 0 <= j < |a[i]| ==> Abs(a[i][j]) <= bound
  }

  lemma AbsMulBound(x: int, y: int, mx: nat, my: nat)
    requires Abs(x) <= mx && Abs(y) <= my
    ensures Abs(x * y) <= mx * my
  {
    assert Abs(x * y) == Abs(x) * Abs(y);
    assert Abs(x) * Abs(y) <= mx * Abs(y);
    assert mx * Abs(y) <= mx * my;
  }

  lemma MulMono(k: nat, n: nat, c: nat)
    requires k <= n
    ensures k * c <= n * c
  {
  }

  lemma StepBound(s: int, t: int, k: nat, bound: nat)
    requires Abs(s) <= k * bound && Abs(t) <= bound
    ensures Abs(s + t) <= (k + 1) * bound
  {
    assert (k + 1) * bound == k * bound + bound;
  }

  /** A dot product of vectors bounded by mu and mv has magnitude at most |u|*mu*mv. */
  lemma {:induction false} DotBound(u: Vector, v: Vector, mu: nat, mv: nat)
    requires |u| == |v|
    requires forall k :: 0 <= k < |u| ==> Abs(u[k]) <= mu
    requires forall k :: 0 <= k < |v| ==> Abs(v[k]) <= mv
    ensures Abs(Dot(u, v)) <= |u| * (mu * mv)
    decreases |u|
  {
    if |u| > 0 {
      var k := |u| - 1;
      var bound := mu * mv;
      DotBound(u[..k], v[..k], mu, mv);
      AbsMulBound(u[k], v[k], mu, mv);
      StepBound(Dot(u[..k], v[..k]), u[k] * v[k], k, bound);
    }
  }

  /** Every prefix dot product of two bounded vectors fits in a 32-bit int when the
      full-length bound does. */
  lemma PrefixDotFits(u: Vector, v: Vector, k: nat, mu: nat, mv: nat)
    requires |u| == |v| && k <= |u|
    requires forall t :: 0 <= t < |u| ==> Abs(u[t]) <= mu
    requires forall t :: 0 <= t < |v| ==> Abs(v[t]) <= mv
    requires |u| * (mu * mv) <= Int32Max
    ensures InInt32(Dot(u[..k], v[..k]))
  {
    DotBound(u[..k], v[..k], mu, mv);
    MulMono(k, |u|, mu * mv);
  }

  /** If every entry of the m x n matrix A has magnitude at most ma, every entry of the
      n x p matrix B has magnitude at most mb, and n*ma*mb fits in a 32-bit int, then
      every term A[i][k]*B[k][j] the triple loop multiplies out fits in a 32-bit int. */
  lemma TermsFitInt32(a: Matrix, b: Matrix, m: nat, n: nat, p: nat, ma: nat, mb: nat)
    requires IsMatrix(a, m, n) && IsMatrix(b, n, p)
    requires EntriesBounded(a, ma) && EntriesBounded(b, mb)
    requires n * (ma * mb) <= Int32Max
    ensures forall i, j, k :: 0 <= i < m && 0 <= j < p && 0 <= k < n ==>
      InInt32(a[i][k] * b[k][j])
  {
    forall i, j, k | 0 <= i < m && 0 <= j < p && 0 <= k < n
      ensures InInt32(a[i][k] * b[k][j])
    {
      AbsMulBound(a[i][k], b[k][j], ma, mb);
      MulMono(1, n, ma * mb);
    }
  }

  /** Under the same bounds, every running sum A[i][0]*B[0][j] + ... + A[i][k-1]*B[k-1][j]
      of the triple loop fits in a 32-bit int, and so does every entry of the product:
      there the unbounded model and 32-bit arithmetic agree. */
  lemma ProductFitsInt32(a: Matrix, b: Matrix, m: nat, n: nat, p: nat, ma: nat, mb: nat)
    requires IsMatrix(a, m, n) && IsMatrix(b, n, p)
    requires EntriesBounded(a, ma) && EntriesBounded(b, mb)
    requires n * (ma * mb) <= Int32Max
    ensures forall i, j, k :: 0 <= i < m && 0 <= j < p && 0 <= k <= n ==>
      InInt32(Dot(a[i][..k], Column(b, j)[..k]))
    ensures forall i, j :: 0 <= i < m && 0 <= j < p ==>
      InInt32(Multiply(a, b, m, n, p)[i][j])
  {
    forall i, j, k | 0 <= i < m && 0 <= j < p && 0 <= k <= n
      ensures InInt32(Dot(a[i][..k], Column(b, j)[..k]))
    {
      PrefixDotFits(a[i], Column(b, j), k, ma, mb);
    }
    forall i, j | 0 <= i < m && 0 <= j < p
      ensures InInt32(Multiply(a, b, m, n, p)[i][j])
    {
      assert a[i][..n] == a[i] && Column(b, j)[..n] == Column(b, j);
    }
  }
}
