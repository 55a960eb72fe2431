/**
  The triple-loop product: for each row i and column j, accumulate
  A[i][0]*B[0][j] + ... + A[i][n-1]*B[n-1][j] and store it in out[i][j]. The output
  arrives already sized m x p and every entry is overwritten, so its previous
  contents do not matter.
 */
module MultiplyLoop {
  import opened Vectors
  import opened Matrices

  method MultiplyInto(a: Matrix, b: Matrix, out: Matrix, m: nat, n: nat, p: nat)
    returns (c: Matrix)
    requires IsMatrix(a, m, n) && IsMatrix(b, n, p) && IsMatrix(out, m, p)
    ensures c == Multiply(a, b, m, n, p)
  {
    ghost var prod := Multiply(a, b, m, n, p);
    c := out;
    var i := 0;
    while i < m
      invariant 0 <= i <= m
      invariant IsMatrix(c, m, p)
      invariant forall r :: 0 <= r < i ==> c[r] == prod[r]
    {
      var j := 0;
      while j < p
        invariant 0 <= j <= p
        invariant IsMatrix(c, m, p)
        invariant forall r :: 0 <= r < i ==> c[r] == prod[r]
        invariant forall t :: 0 <= t < j ==> c[i][t] == prod[i][t]
      {
        ghost var col := Column(b, j);
        var acc := 0;
        var k := 0;
        while k < n
          invariant 0 <= k <= n
          invariant acc == Dot(a[i][..k], col[..k])
        {
          assert a[i][..k + 1][..k] == a[i][..k];
          assert col[..k + 1][..k] == col[..k];
          acc := acc + a[i][k] * b[k][j];
          k := k + 1;
        }
        assert a[i][..n] == a[i] && col[..n] == col;
        c := c[i := c[i][j := acc]];
        j := j + 1;
      }
      assert c[i] == prod[i];
      i := i + 1;
    }
  }
}
