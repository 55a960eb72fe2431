/**
  Integer vectors: the dot product that every entry of a matrix product is made of,
  and the algebraic facts about it (symmetry, linearity, zero and unit vectors) that
  the matrix laws are built from.
 */
module Vectors {

  type Vector = seq<int>

  /** The dot product, summed from the first index upwards:
      Dot(u, v) = u[0]*v[0] + ... + u[|u|-1]*v[|u|-1]. */
  function Dot(u: Vector, v: Vector): int
    requires |u| == |v|
    decreases |u|
  {
    if |u| == 0 then 0
    else Dot(u[..|u| - 1], v[..|v| - 1]) + u[|u| - 1] * v[|v| - 1]
  }

  /** Entrywise sum of two vectors of the same length. */
  function VAdd(x: Vector, y: Vector): (r: Vector)
    requires |x| == |y|
    ensures |r| == |x|
    ensures forall k :: 0 <= k < |r| ==> r[k] == x[k] + y[k]
  {
    seq(|x|, k requires 0 <= k < |x| => x[k] + y[k])
  }

  /** A vector scaled by an integer. */
  function VScale(c: int, y: Vector): (r: Vector)
    ensures |r| == |y|
    ensures forall k :: 0 <= k < |r| ==> r[k] == c * y[k]
  {
    seq(|y|, k requires 0 <= k < |y| => c * y[k])
  }

  /** The all-zero vector of length n. */
  function Zeros(n: nat): (r: Vector)
    ensures |r| == n
    ensures forall k :: 0 <= k < n ==> r[k] == 0
  {
    seq(n, k => 0)
  }

  /** The i-th unit vector of length n: 1 at index i, 0 elsewhere. */
  function Unit(n: nat, i: nat): (r: Vector)
    ensures |r| == n
    ensures forall k :: 0 <= k < n ==> r[k] == (if k == i then 1 else 0)
  {
    seq(n, k => if k == i then 1 else 0)
  }

  /** The dot product is symmetric. */
  lemma {:induction false} DotComm(u: Vector, v: Vector)
    requires |u| == |v|
    ensures Dot(u, v) == Dot(v, u)
    decreases |u|
  {
    if |u| > 0 {
      DotComm(u[..|u| - 1], v[..|v| - 1]);
    }
  }

  /** The dot product distributes over a sum in its left argument. */
  lemma {:induction false} DotAddLeft(x: Vector, y: Vector, v: Vector)
    requires |x| == |y| == |v|
    ensures Dot(VAdd(x, y), v) == Dot(x, v) + Dot(y, v)
    decreases |x|
  {
    if |x| > 0 {
      var k := |x| - 1;
      assert VAdd(x, y)[..k] == VAdd(x[..k], y[..k]);
      DotAddLeft(x[..k], y[..k], v[..k]);
      assert (x[k] + y[k]) * v[k] == x[k] * v[k] + y[k] * v[k];
    }
  }

  /** The dot product distributes over a sum in its right argument. */
  lemma DotAddRight(u: Vector, x: Vector, y: Vector)
    requires |u| == |x| == |y|
    ensures Dot(u, VAdd(x, y)) == Dot(u, x) + Dot(u, y)
  {
    DotComm(u, VAdd(x, y));
    DotComm(u, x);
    DotComm(u, y);
    DotAddLeft(x, y, u);
  }

  /** A scalar factor in the left argument comes out of the dot product. */
  lemma {:induction false} DotScaleLeft(c: int, y: Vector, v: Vector)
    requires |y| == |v|
    ensures Dot(VScale(c, y), v) == c * Dot(y, v)
    decreases |y|
  {
    if |y| > 0 {
      var k := |y| - 1;
      assert VScale(c, y)[..k] == VScale(c, y[..k]);
      DotScaleLeft(c, y[..k], v[..k]);
      assert (c * y[k]) * v[k] == c * (y[k] * v[k]);
      assert c * Dot(y[..k], v[..k]) + c * (y[k] * v[k]) == c * (Dot(y[..k], v[..k]) + y[k] * v[k]);
    }
  }

  /** The zero vector annihilates the dot product, on either side. */
  lemma {:induction false} DotZeroLeft(v: Vector)
    ensures Dot(Zeros(|v|), v) == 0
    ensures Dot(v, Zeros(|v|)) == 0
    decreases |v|
  {
    if |v| > 0 {
      var k := |v| - 1;
      assert Zeros(|v|)[..k] == Zeros(k);
      DotZeroLeft(v[..k]);
    }
  }

  /** The unit vector e_i picks out entry i, on either side. */
  lemma {:induction false} DotUnit(n: nat, i: nat, v: Vector)
    requires |v| == n && i < n
    ensures Dot(Unit(n, i), v) == v[i]
    ensures Dot(v, Unit(n, i)) == v[i]
    decreases n
  {
    var k := n - 1;
    if i < k {
      assert Unit(n, i)[..k] == Unit(k, i);
      DotUnit(k, i, v[..k]);
    } else {
      assert Unit(n, i)[..k] == Zeros(k);
      DotZeroLeft(v[..k]);
    }
  }
}
