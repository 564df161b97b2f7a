/** Arithmetic on real vectors (mfem::Vector) as sequences of reals.

    Every full-order vector of the source has the same length. The operators
    and the orthogonalizer are abstract here, and nothing forces their results
    to have that length. So the vector algebra is total: an entry past the end
    of a vector reads as 0 (`At`), and a sum has the length of its longer
    operand. On vectors of equal length these are the usual operations. */
module RealVectors {

  type Vec = seq<real>

  /** Entry i of x, or 0 past its end. */
  function At(x: Vec, i: int): real {
    if 0 <= i < |x| then x[i] else 0.0
  }

  function Max(a: nat, b: nat): nat { if a < b then b else a }

  /** Local inner product x · y (mfem `Vector::operator*`, hypre_SeqVectorInnerProd)
      taken over the entries of x. */
  function Dot(x: Vec, y: Vec): real
    decreases |x|
  {
    if |x| == 0 then 0.0 else Dot(x[..|x| - 1], y) + x[|x| - 1] * At(y, |x| - 1)
  }

  /** Sum of the entries (hypre_SeqVectorSumElts). */
  function Sum(x: Vec): real
    decreases |x|
  {
    if |x| == 0 then 0.0 else Sum(x[..|x| - 1]) + x[|x| - 1]
  }

  function NormSq(x: Vec): real { Dot(x, x) }

  function Zeros(n: nat): (r: Vec)
    ensures |r| == n && forall i :: 0 <= i < n ==> r[i] == 0.0
  {
    seq(n, _ => 0.0)
  }

  /** a*x, entrywise (mfem `Vector::operator*=`). */
  function Scaled(a: real, x: Vec): (r: Vec)
    ensures |r| == |x|
  {
    seq(|x|, i requires 0 <= i < |x| => a * x[i])
  }

  /** a*y + b*z, entrywise. */
  function Comb(a: real, y: Vec, b: real, z: Vec): (r: Vec)
    ensures |r| == Max(|y|, |z|)
  {
    seq(Max(|y|, |z|), i => a * At(y, i) + b * At(z, i))
  }

  /** mfem `add`/`Add` as used by linalg::AXPY and linalg::AXPBYPCZ on real vectors:
      the result keeps the length of the vector being updated. */
  function Axpy(a: real, x: Vec, y: Vec): (r: Vec)
    ensures |r| == |y|
  {
    seq(|y|, i requires 0 <= i < |y| => a * At(x, i) + y[i])
  }

  function Axpbypcz(a: real, x: Vec, b: real, y: Vec, c: real, z: Vec): (r: Vec)
    ensures |r| == |z|
  {
    seq(|z|, i requires 0 <= i < |z| => a * At(x, i) + b * At(y, i) + c * z[i])
  }

  /** a*x + c*z, keeping the length of z (mfem add(a, x, c, z, z)). */
  function Axpby(a: real, x: Vec, c: real, z: Vec): (r: Vec)
    ensures |r| == |z|
  {
    seq(|z|, i requires 0 <= i < |z| => a * At(x, i) + c * z[i])
  }

  /** Adding b*y after a*x + c*z is a*x + b*y + c*z. */
  lemma AxpbyThenAxpy(a: real, x: Vec, b: real, y: Vec, c: real, z: Vec)
    ensures Axpy(b, y, Axpby(a, x, c, z)) == Axpbypcz(a, x, b, y, c, z)
  {
  }

  lemma AtComb(a: real, y: Vec, b: real, z: Vec, i: int)
    ensures At(Comb(a, y, b, z), i) == a * At(y, i) + b * At(z, i)
  {
  }

  lemma {:induction false} DotZeroRight(x: Vec, y: Vec)
    requires forall i :: 0 <= i < |x| ==> At(y, i) == 0.0
    ensures Dot(x, y) == 0.0
    decreases |x|
  {
    if |x| > 0 {
      DotZeroRight(x[..|x| - 1], y);
    }
  }

  lemma Distribute(c: real, a: real, p: real, b: real, q: real)
    ensures c * (a * p + b * q) == a * (c * p) + b * (c * q)
  {
  }

  /** The inner product is linear in its second argument. */
  lemma {:induction false} DotComb(x: Vec, a: real, y: Vec, b: real, z: Vec)
    ensures Dot(x, Comb(a, y, b, z)) == a * Dot(x, y) + b * Dot(x, z)
    decreases |x|
  {
    if |x| > 0 {
      var k := |x| - 1;
      DotComb(x[..k], a, y, b, z);
      AtComb(a, y, b, z, k);
      Distribute(x[k], a, At(y, k), b, At(z, k));
    }
  }

  /** Two vectors equal on the entries of x have the same inner product with x. */
  lemma {:induction false} DotCongruent(x: Vec, y: Vec, z: Vec)
    requires forall i :: 0 <= i < |x| ==> At(y, i) == At(z, i)
    ensures Dot(x, y) == Dot(x, z)
    decreases |x|
  {
    if |x| > 0 {
      DotCongruent(x[..|x| - 1], y, z);
    }
  }

  /** The inner product of two vectors of equal length is symmetric. */
  lemma {:induction false} DotSymmetric(x: Vec, y: Vec)
    requires |x| == |y|
    ensures Dot(x, y) == Dot(y, x)
    decreases |x|
  {
    if |x| > 0 {
      var k := |x| - 1;
      assert x[..k][..|x[..k]|] == x[..k];
      DotSymmetric(x[..k], y[..k]);
      DotPrefixRight(x[..k], y, k);
      DotPrefixRight(y[..k], x, k);
    }
  }

  lemma SquareNonNegative(v: real)
    ensures v * v >= 0.0
  {
    if v < 0.0 {
      assert v * v == (-v) * (-v);
    }
  }

  /** x · x is never negative. */
  lemma {:induction false} DotSelfNonNegative(x: Vec)
    ensures Dot(x, x) >= 0.0
    decreases |x|
  {
    if |x| > 0 {
      var k := |x| - 1;
      DotPrefixRight(x[..k], x, k);
      assert x[..k][..k] == x[..k];
      DotSelfNonNegative(x[..k]);
      SquareNonNegative(x[k]);
    }
  }

  /** Only the first |x| entries of y matter to x · y. */
  lemma {:induction false} DotPrefixRight(x: Vec, y: Vec, n: nat)
    requires |x| <= n <= |y|
    ensures Dot(x, y) == Dot(x, y[..n])
  {
    DotCongruent(x, y, y[..n]);
  }
}
