/**
  The concrete matrices of the property tests, and what the model says about them:
  the product witness, the non-commutativity witness, and the two tests whose
  expected values disagree with the product.
 */
module TestCases {
  import opened Vectors
  import opened Matrices
  import opened Laws
  import opened Bounds

  /** Every entry of a product with inner dimension 2, written out. */
  lemma Multiply2(a: Matrix, b: Matrix, m: nat, p: nat)
    requires IsMatrix(a, m, 2) && IsMatrix(b, 2, p)
    ensures forall i, j :: 0 <= i < m && 0 <= j < p ==>
      Multiply(a, b, m, 2, p)[i][j] == a[i][0] * b[0][j] + a[i][1] * b[1][j]
  {
    forall i, j | 0 <= i < m && 0 <= j < p
      ensures Multiply(a, b, m, 2, p)[i][j] == a[i][0] * b[0][j] + a[i][1] * b[1][j]
    {
      var u, v := a[i], Column(b, j);
      assert u[..1][..0] == [];
      assert Dot(u[..1], v[..1]) == u[0] * v[0];
    }
  }

  /** Every entry of a product with inner dimension 3, written out. */
  lemma Multiply3(a: Matrix, b: Matrix, m: nat, p: nat)
    requires IsMatrix(a, m, 3) && IsMatrix(b, 3, p)
    ensures forall i, j :: 0 <= i < m && 0 <= j < p ==>
      Multiply(a, b, m, 3, p)[i][j] == a[i][0] * b[0][j] + a[i][1] * b[1][j] + a[i][2] * b[2][j]
  {
    forall i, j | 0 <= i < m && 0 <= j < p
      ensures Multiply(a, b, m, 3, p)[i][j] == a[i][0] * b[0][j] + a[i][1] * b[1][j] + a[i][2] * b[2][j]
    {
      var u, v := a[i], Column(b, j);
      assert u[..1][..0] == [];
      assert u[..2][..1] == u[..1];
      assert v[..2][..1] == v[..1];
      assert Dot(u[..1], v[..1]) == u[0] * v[0];
      assert Dot(u[..2], v[..2]) == u[0] * v[0] + u[1] * v[1];
    }
  }

  /** A 2 x 3 and a 3 x 2 operand of the dimension tests. */
  const RectA: Matrix := [[1, 2, 3], [4, 5, 6]]
  const RectB: Matrix := [[7, 8], [9, 10], [11, 12]]

  /** The 2 x 2 operands of the property tests. */
  const SquareA: Matrix := [[1, 0], [1, -1]]
  const SquareB: Matrix := [[1, 2], [2, 4]]

  /** The 3 x 2 operand of the rectangular identity, zero and large-number tests. */
  const TallA: Matrix := [[1, 0], [1, -1], [4, 5]]

  /** The product is the sum of products of rows of A with columns of B:
      for instance 1*7 + 2*9 + 3*11 == 58. */
  lemma ProductWitness()
    ensures Multiply(RectA, RectB, 2, 3, 2) == [[58, 64], [139, 154]]
  {
    var r := Multiply(RectA, RectB, 2, 3, 2);
    Multiply3(RectA, RectB, 2, 2);
    assert r[0] == [58, 64];
    assert r[1] == [139, 154];
  }

  /** Multiplication is not commutative: A B and B A differ for the test's A and B. */
  lemma NotCommutative()
    ensures Multiply(SquareA, SquareB, 2, 2, 2) == [[1, 2], [-1, -2]]
    ensures Multiply(SquareB, SquareA, 2, 2, 2) == [[3, -2], [6, -4]]
    ensures Multiply(SquareA, SquareB, 2, 2, 2) != Multiply(SquareB, SquareA, 2, 2, 2)
  {
    var ab := Multiply(SquareA, SquareB, 2, 2, 2);
    var ba := Multiply(SquareB, SquareA, 2, 2, 2);
    Multiply2(SquareA, SquareB, 2, 2);
    Multiply2(SquareB, SquareA, 2, 2);
    assert ab[0] == [1, 2] && ab[1] == [-1, -2];
    assert ba[0] == [3, -2] && ba[1] == [6, -4];
    assert ab[0][0] != ba[0][0];
  }

  /** The 2 x 2 zero right operand and the 3 x 2 expected product of the zero test. */
  const ZeroO: Matrix := [[0, 0], [0, 0]]
  const ExpectedAO: Matrix := [[0, 0], [0, 0], [0, 0]]

  /** As written, the zero test compares the 3 x 2 product A O with the 2 x 2 O, and
      the two differ: the assertion compares matrices of different shapes. */
  lemma ZeroProductAsWritten()
    ensures Multiply(TallA, ZeroO, 3, 2, 2) != ZeroO
  {
    assert ZeroMatrix(2, 2)[0] == ZeroMatrix(2, 2)[1] == [0, 0];
    assert ZeroO == ZeroMatrix(2, 2);
    MultiplyByZero(TallA, 3, 2, 2);
    assert |Multiply(TallA, ZeroO, 3, 2, 2)| == 3;
  }

  /** The comparison the test evidently intends: A O equals the 3 x 2 zero matrix. */
  lemma ZeroProductCorrected()
    ensures Multiply(TallA, ZeroO, 3, 2, 2) == ExpectedAO
  {
    assert ZeroMatrix(2, 2)[0] == ZeroMatrix(2, 2)[1] == [0, 0];
    assert ZeroO == ZeroMatrix(2, 2);
    assert ZeroMatrix(3, 2)[0] == ZeroMatrix(3, 2)[1] == ZeroMatrix(3, 2)[2] == [0, 0];
    assert ExpectedAO == ZeroMatrix(3, 2);
    MultiplyByZero(TallA, 3, 2, 2);
  }

  /** The operands and the expected matrix of the large-number test. B has three rows
      but the declared inner dimension is 2, so only its first two rows take part. */
  const LargeA: Matrix := [[1000000, 0], [1, -1], [4, 5]]
  const LargeB: Matrix := [[1, 0], [1, -1], [4, 5]]
  const LargeExpected: Matrix := [[1000000, 0], [0, 2], [21, 21]]

  /** As written, the expected matrix is not the product of A with the first two rows
      of B: its second row should be [0, 1], not [0, 2]. */
  lemma LargeNumberAsWritten()
    ensures Multiply(LargeA, LargeB[..2], 3, 2, 2) != LargeExpected
  {
    var r := Multiply(LargeA, LargeB[..2], 3, 2, 2);
    Multiply2(LargeA, LargeB[..2], 3, 2);
    assert r[1] == [0, 1];
    assert r[1][1] != LargeExpected[1][1];
  }

  /** The true product of the large-number test's operands. */
  lemma LargeNumberCorrected()
    ensures Multiply(LargeA, LargeB[..2], 3, 2, 2) == [[1000000, 0], [0, 1], [9, -5]]
  {
    var r := Multiply(LargeA, LargeB[..2], 3, 2, 2);
    Multiply2(LargeA, LargeB[..2], 3, 2);
    assert r[0] == [1000000, 0];
    assert r[1] == [0, 1];
    assert r[2] == [9, -5];
  }

  /** The large-number test stays within 32-bit arithmetic: A's entries are at most
      1000000 in magnitude, the two rows of B taken part are at most 1, and
      2 * 1000000 * 1 fits, so every term, running sum and entry of the product fits
      in a 32-bit int. */
  lemma LargeNumberFitsInt32()
    ensures forall i, j, k :: 0 <= i < 3 && 0 <= j < 2 && 0 <= k < 2 ==>
      InInt32(LargeA[i][k] * LargeB[..2][k][j])
    ensures forall i, j, k :: 0 <= i < 3 && 0 <= j < 2 && 0 <= k <= 2 ==>
      InInt32(Dot(LargeA[i][..k], Column(LargeB[..2], j)[..k]))
    ensures forall i, j :: 0 <= i < 3 && 0 <= j < 2 ==>
      InInt32(Multiply(LargeA, LargeB[..2], 3, 2, 2)[i][j])
  {
    assert EntriesBounded(LargeA, 1000000);
    assert EntriesBounded(LargeB[..2], 1);
    TermsFitInt32(LargeA, LargeB[..2], 3, 2, 2, 1000000, 1);
    ProductFitsInt32(LargeA, LargeB[..2], 3, 2, 2, 1000000, 1);
  }
}
