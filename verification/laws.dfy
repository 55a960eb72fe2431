/**
  The algebraic laws of the matrix product that the property tests assert:
  associativity, distributivity over the sum on both sides, left and right
  identity (square and rectangular), and the zero product.
 */
module Laws {
  import opened Vectors
  import opened Matrices

  /** Row u times b, dotted with v, equals u dotted with b times v:
      the one-row form of associativity, (u b) v == u (b v). */
  lemma {:induction false} DotVecMat(u: Vector, b: Matrix, v: Vector, p: nat)
    requires IsMatrix(b, |u|, p) && |v| == p
    ensures Dot(VecMat(u, b, p), v) == Dot(u, MatVec(b, v))
    decreases |u|
  {
    var n := |u|;
    if n == 0 {
      assert VecMat(u, b, p) == Zeros(p);
      DotZeroLeft(v);
    } else {
      var k := n - 1;
      var u', b' := u[..k], b[..k];
      forall j | 0 <= j < p
        ensures VecMat(u, b, p)[j] == VAdd(VecMat(u', b', p), VScale(u[k], b[k]))[j]
      {
        assert Column(b, j)[..k] == Column(b', j);
      }
      assert VecMat(u, b, p) == VAdd(VecMat(u', b', p), VScale(u[k], b[k]));
      DotAddLeft(VecMat(u', b', p), VScale(u[k], b[k]), v);
      DotScaleLeft(u[k], b[k], v);
      DotVecMat(u', b', v, p);
      assert MatVec(b, v)[..k] == MatVec(b', v);
    }
  }

  /** Column j of a product b c is b times column j of c. */
  lemma ColumnOfProduct(b: Matrix, c: Matrix, n: nat, p: nat, q: nat, j: nat)
    requires IsMatrix(b, n, p) && IsMatrix(c, p, q) && j < q
    ensures Column(Multiply(b, c, n, p, q), j) == MatVec(b, Column(c, j))
  {
  }

  /** Associativity: (A B) C == A (B C) for an m x n A, n x p B and p x q C. */
  lemma MultiplyAssociative(a: Matrix, b: Matrix, c: Matrix, m: nat, n: nat, p: nat, q: nat)
    requires IsMatrix(a, m, n) && IsMatrix(b, n, p) && IsMatrix(c, p, q)
    ensures Multiply(Multiply(a, b, m, n, p), c, m, p, q)
         == Multiply(a, Multiply(b, c, n, p, q), m, n, q)
  {
    var ab := Multiply(a, b, m, n, p);
    var bc := Multiply(b, c, n, p, q);
    var lhs := Multiply(ab, c, m, p, q);
    var rhs := Multiply(a, bc, m, n, q);
    forall i, j | 0 <= i < m && 0 <= j < q
      ensures lhs[i][j] == rhs[i][j]
    {
      ColumnOfProduct(b, c, n, p, q, j);
      DotVecMat(a[i], b, Column(c, j), p);
    }
    assert forall i :: 0 <= i < m ==> lhs[i] == rhs[i];
  }

  /** Column j of a sum is the sum of the columns j. */
  lemma ColumnOfSum(b: Matrix, c: Matrix, n: nat, p: nat, j: nat)
    requires IsMatrix(b, n, p) && IsMatrix(c, n, p) && j < p
    ensures Column(Add(b, c, n, p), j) == VAdd(Column(b, j), Column(c, j))
  {
  }

  /** Left distributivity: A (B + C) == A B + A C. */
  lemma LeftDistributive(a: Matrix, b: Matrix, c: Matrix, m: nat, n: nat, p: nat)
    requires IsMatrix(a, m, n) && IsMatrix(b, n, p) && IsMatrix(c, n, p)
    ensures Multiply(a, Add(b, c, n, p), m, n, p)
         == Add(Multiply(a, b, m, n, p), Multiply(a, c, m, n, p), m, p)
  {
    var lhs := Multiply(a, Add(b, c, n, p), m, n, p);
    var rhs := Add(Multiply(a, b, m, n, p), Multiply(a, c, m, n, p), m, p);
    forall i, j | 0 <= i < m && 0 <= j < p
      ensures lhs[i][j] == rhs[i][j]
    {
      ColumnOfSum(b, c, n, p, j);
      DotAddRight(a[i], Column(b, j), Column(c, j));
    }
    assert forall i :: 0 <= i < m ==> lhs[i] == rhs[i];
  }

  /** Right distributivity: (B + C) A == B A + C A. */
  lemma RightDistributive(a: Matrix, b: Matrix, c: Matrix, m: nat, n: nat, p: nat)
    requires IsMatrix(b, m, n) && IsMatrix(c, m, n) && IsMatrix(a, n, p)
    ensures Multiply(Add(b, c, m, n), a, m, n, p)
         == Add(Multiply(b, a, m, n, p), Multiply(c, a, m, n, p), m, p)
  {
    var lhs := Multiply(Add(b, c, m, n), a, m, n, p);
    var rhs := Add(Multiply(b, a, m, n, p), Multiply(c, a, m, n, p), m, p);
    forall i, j | 0 <= i < m && 0 <= j < p
      ensures lhs[i][j] == rhs[i][j]
    {
      assert Add(b, c, m, n)[i] == VAdd(b[i], c[i]);
      DotAddLeft(b[i], c[i], Column(a, j));
    }
    assert forall i :: 0 <= i < m ==> lhs[i] == rhs[i];
  }

  /** Left identity: I A == A for any m x n A, square or not, with I of size m. */
  lemma LeftIdentity(a: Matrix, m: nat, n: nat)
    requires IsMatrix(a, m, n)
    ensures Multiply(Identity(m), a, m, m, n) == a
  {
    var lhs := Multiply(Identity(m), a, m, m, n);
    forall i, j | 0 <= i < m && 0 <= j < n
      ensures lhs[i][j] == a[i][j]
    {
      DotUnit(m, i, Column(a, j));
    }
    assert forall i :: 0 <= i < m ==> lhs[i] == a[i];
  }

  /** Right identity: A I == A for any m x n A, square or not, with I of size n. */
  lemma RightIdentity(a: Matrix, m: nat, n: nat)
    requires IsMatrix(a, m, n)
    ensures Multiply(a, Identity(n), m, n, n) == a
  {
    var lhs := Multiply(a, Identity(n), m, n, n);
    forall i, j | 0 <= i < m && 0 <= j < n
      ensures lhs[i][j] == a[i][j]
    {
      IdentityColumn(n, j);
      DotUnit(n, j, a[i]);
    }
    assert forall i :: 0 <= i < m ==> lhs[i] == a[i];
  }

  /** A zero right operand gives the zero matrix of the product's shape. */
  lemma MultiplyByZero(a: Matrix, m: nat, n: nat, p: nat)
    requires IsMatrix(a, m, n)
    ensures Multiply(a, ZeroMatrix(n, p), m, n, p) == ZeroMatrix(m, p)
  {
    var lhs := Multiply(a, ZeroMatrix(n, p), m, n, p);
    forall i, j | 0 <= i < m && 0 <= j < p
      ensures lhs[i][j] == 0
    {
      ZeroColumn(n, p, j);
      DotZeroLeft(a[i]);
    }
    assert forall i :: 0 <= i < m ==> lhs[i] == ZeroMatrix(m, p)[i];
  }
}
