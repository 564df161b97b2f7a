/** Free functions of palace::linalg on real vectors (arrays) and complex
    vectors: SetSubVector in its six overloads, the sign map that ends
    SetRandomSign, and the local inner products. */
module Linalg {
  import opened Scalars
  import opened RealVectors
  import opened ComplexVectors

  // ---- specifications ----

  predicate RowsIn(rows: seq<int>, n: nat) {
    forall i :: 0 <= i < |rows| ==> 0 <= rows[i] < n
  }

  /** x with the value s at every listed row. */
  function SetRows(x: Vec, rows: seq<int>, s: real): (r: Vec)
    ensures |r| == |x|
  {
    seq(|x|, k requires 0 <= k < |x| => if k in rows then s else x[k])
  }

  /** x with y's value at every listed row. */
  function CopyRows(x: Vec, rows: seq<int>, y: Vec): (r: Vec)
    requires RowsIn(rows, |y|)
    ensures |r| == |x|
  {
    seq(|x|, k requires 0 <= k < |x| => if k in rows then y[k] else x[k])
  }

  /** x with the value s on positions start .. end-1. */
  function SetRange(x: Vec, start: int, end: int, s: real): (r: Vec)
    ensures |r| == |x|
  {
    seq(|x|, k requires 0 <= k < |x| => if start <= k < end then s else x[k])
  }

  /** The row list start, start+1, ..., end-1. */
  function Range(start: int, end: int): (r: seq<int>)
    decreases end - start
  {
    if end <= start then [] else [start] + Range(start + 1, end)
  }

  lemma {:induction false} RangeMembers(start: int, end: int, k: int)
    ensures k in Range(start, end) <==> start <= k < end
    decreases end - start
  {
    if start < end {
      RangeMembers(start + 1, end, k);
    }
  }

  /** The range overload is the list overload on the rows start .. end-1. */
  lemma SetRangeIsSetRows(x: Vec, start: int, end: int, s: real)
    ensures SetRange(x, start, end, s) == SetRows(x, Range(start, end), s)
  {
    forall k | 0 <= k < |x|
      ensures SetRange(x, start, end, s)[k] == SetRows(x, Range(start, end), s)[k]
    {
      RangeMembers(start, end, k);
    }
  }

  /** Setting the same rows twice is setting them once; setting them to their
      current values changes nothing. */
  lemma SetRowsIdempotent(x: Vec, rows: seq<int>, s: real)
    ensures SetRows(SetRows(x, rows, s), rows, s) == SetRows(x, rows, s)
    ensures (forall k :: 0 <= k < |x| && k in rows ==> x[k] == s) ==> SetRows(x, rows, s) == x
  {
  }

  /** Copying rows from y and then from y again changes nothing more, and
      afterwards x agrees with y on every listed row. */
  lemma CopyRowsAgrees(x: Vec, rows: seq<int>, y: Vec)
    requires RowsIn(rows, |x|) && RowsIn(rows, |y|)
    ensures forall i :: 0 <= i < |rows| ==> CopyRows(x, rows, y)[rows[i]] == y[rows[i]]
    ensures CopyRows(CopyRows(x, rows, y), rows, y) == CopyRows(x, rows, y)
  {
  }

  // ---- SetSubVector ----

  /** SetSubVector(Vector &x, rows, s). */
  method SetSubVectorRows(x: array<real>, rows: seq<int>, s: real)
    requires RowsIn(rows, x.Length)
    modifies x
    ensures x[..] == SetRows(old(x[..]), rows, s)
  {
    var i := 0;
    while i < |rows|
      invariant 0 <= i <= |rows|
      invariant forall k :: 0 <= k < x.Length ==> x[k] == if k in rows[..i] then s else old(x[k])
    {
      x[rows[i]] := s;
      assert rows[..i + 1] == rows[..i] + [rows[i]];
      i := i + 1;
    }
    assert rows[..i] == rows;
  }

  /** SetSubVector(ComplexVector &x, rows, s): the imaginary part becomes 0 at those rows. */
  method SetSubVectorRowsComplex(x: ComplexVector, rows: seq<int>, s: real)
    requires x.Valid() && RowsIn(rows, x.Size())
    modifies x.xr, x.xi
    ensures x.Real() == SetRows(old(x.Real()), rows, s)
    ensures x.Imag() == SetRows(old(x.Imag()), rows, 0.0)
  {
    var i := 0;
    while i < |rows|
      invariant 0 <= i <= |rows|
      invariant forall k :: 0 <= k < x.xr.Length ==>
        x.xr[k] == (if k in rows[..i] then s else old(x.xr[k])) &&
        x.xi[k] == (if k in rows[..i] then 0.0 else old(x.xi[k]))
    {
      x.xr[rows[i]] := s;
      x.xi[rows[i]] := 0.0;
      assert rows[..i + 1] == rows[..i] + [rows[i]];
      i := i + 1;
    }
    assert rows[..i] == rows;
  }

  /** SetSubVector(Vector &x, rows, const Vector &y). */
  method SetSubVectorCopy(x: array<real>, rows: seq<int>, y: Vec)
    requires RowsIn(rows, x.Length) && RowsIn(rows, |y|)
    modifies x
    ensures x[..] == CopyRows(old(x[..]), rows, y)
  {
    var i := 0;
    while i < |rows|
      invariant 0 <= i <= |rows|
      invariant forall k :: 0 <= k < x.Length ==> x[k] == if k in rows[..i] then y[k] else old(x[k])
    {
      x[rows[i]] := y[rows[i]];
      assert rows[..i + 1] == rows[..i] + [rows[i]];
      i := i + 1;
    }
    assert rows[..i] == rows;
  }

  /** SetSubVector(ComplexVector &x, rows, const ComplexVector &y). */
  method SetSubVectorCopyComplex(x: ComplexVector, rows: seq<int>, y: Block)
    requires x.Valid() && RowsIn(rows, x.Size()) && RowsIn(rows, |y.re|) && RowsIn(rows, |y.im|)
    modifies x.xr, x.xi
    ensures x.Real() == CopyRows(old(x.Real()), rows, y.re)
    ensures x.Imag() == CopyRows(old(x.Imag()), rows, y.im)
  {
    var i := 0;
    while i < |rows|
      invariant 0 <= i <= |rows|
      invariant forall k :: 0 <= k < x.xr.Length ==>
        x.xr[k] == (if k in rows[..i] then y.re[k] else old(x.xr[k])) &&
        x.xi[k] == (if k in rows[..i] then y.im[k] else old(x.xi[k]))
    {
      x.xr[rows[i]] := y.re[rows[i]];
      x.xi[rows[i]] := y.im[rows[i]];
      assert rows[..i + 1] == rows[..i] + [rows[i]];
      i := i + 1;
    }
    assert rows[..i] == rows;
  }

  /** SetSubVector(Vector &x, start, end, s). */
  method SetSubVectorRange(x: array<real>, start: int, end: int, s: real)
    requires 0 <= start <= end <= x.Length
    modifies x
    ensures x[..] == SetRange(old(x[..]), start, end, s)
  {
    var i := 0;
    while i < end - start
      invariant 0 <= i <= end - start
      invariant forall k :: 0 <= k < x.Length ==> x[k] == if start <= k < start + i then s else old(x[k])
    {
      x[start + i] := s;
      i := i + 1;
    }
  }

  /** SetSubVector(ComplexVector &x, start, end, s): the imaginary part becomes 0 there. */
  method SetSubVectorRangeComplex(x: ComplexVector, start: int, end: int, s: real)
    requires x.Valid() && 0 <= start <= end <= x.Size()
    modifies x.xr, x.xi
    ensures x.Real() == SetRange(old(x.Real()), start, end, s)
    ensures x.Imag() == SetRange(old(x.Imag()), start, end, 0.0)
  {
    var i := 0;
    while i < end - start
      invariant 0 <= i <= end - start
      invariant forall k :: 0 <= k < x.xr.Length ==>
        x.xr[k] == (if start <= k < start + i then s else old(x.xr[k])) &&
        x.xi[k] == (if start <= k < start + i then 0.0 else old(x.xi[k]))
    {
      x.xr[start + i] := s;
      x.xi[start + i] := 0.0;
      i := i + 1;
    }
  }

  // ---- SetRandomSign ----

  /** The map applied to each random entry: 1 above 0, -1 below, 0 at 0. */
  function Sign(v: real): (r: real)
    ensures r == 1.0 || r == -1.0 || r == 0.0
    ensures r * v >= 0.0 && (r == 0.0 <==> v == 0.0)
  {
    if v > 0.0 then 1.0 else if v < 0.0 then -1.0 else 0.0
  }

  function Signs(x: Vec): (r: Vec)
    ensures |r| == |x|
  {
    seq(|x|, k requires 0 <= k < |x| => Sign(x[k]))
  }

  /** The sign map keeps signs: applying it twice is applying it once. */
  lemma SignsIdempotent(x: Vec)
    ensures Signs(Signs(x)) == Signs(x)
  {
  }

  /** The kernel of SetRandomSign(Vector &x) after x has been randomized. */
  method SetSign(x: array<real>)
    modifies x
    ensures x[..] == Signs(old(x[..]))
  {
    var i := 0;
    while i < x.Length
      invariant 0 <= i <= x.Length
      invariant forall k :: 0 <= k < i ==> x[k] == Sign(old(x[k]))
      invariant forall k :: i <= k < x.Length ==> x[k] == old(x[k])
    {
      x[i] := if x[i] > 0.0 then 1.0 else if x[i] < 0.0 then -1.0 else 0.0;
      i := i + 1;
    }
  }

  /** The kernel of SetRandomSign(ComplexVector &x): both parts, entry by entry. */
  method SetSignComplex(x: ComplexVector)
    requires x.Valid()
    modifies x.xr, x.xi
    ensures x.Real() == Signs(old(x.Real())) && x.Imag() == Signs(old(x.Imag()))
  {
    var i := 0;
    while i < x.xr.Length
      invariant 0 <= i <= x.xr.Length
      invariant forall k :: 0 <= k < i ==> x.xr[k] == Sign(old(x.xr[k])) && x.xi[k] == Sign(old(x.xi[k]))
      invariant forall k :: i <= k < x.xr.Length ==> x.xr[k] == old(x.xr[k]) && x.xi[k] == old(x.xi[k])
    {
      x.xr[i] := if x.xr[i] > 0.0 then 1.0 else if x.xr[i] < 0.0 then -1.0 else 0.0;
      x.xi[i] := if x.xi[i] > 0.0 then 1.0 else if x.xi[i] < 0.0 then -1.0 else 0.0;
      i := i + 1;
    }
  }

  // ---- LocalDot ----

  /** LocalDot(const Vector &x, const Vector &y) (hypre_SeqVectorInnerProd). */
  function LocalDot(x: Vec, y: Vec): (r: real)
    requires |x| == |y|
    ensures r == RealVectors.Dot(y, x)
  {
    DotSymmetric(x, y);
    RealVectors.Dot(x, y)
  }

  /** LocalDot(const ComplexVector &x, const ComplexVector &y): yᴴ x, with the
      imaginary part 0 when x and y are the same vector. */
  function LocalDotComplex(x: ComplexVector, y: ComplexVector): (r: Complex)
    reads x, x.xr, x.xi, y, y.xr, y.xi
    requires x.Valid() && y.Valid() && x.Size() == y.Size()
    ensures r.re == RealVectors.Dot(x.Real(), y.Real()) + RealVectors.Dot(x.Imag(), y.Imag())
    ensures r.im == RealVectors.Dot(x.Imag(), y.Real()) - RealVectors.Dot(x.Real(), y.Imag())
    ensures x == y ==> r.im == 0.0 && r.re >= 0.0
  {
    DotSymmetric(x.Imag(), x.Real());
    DotSelfNonNegative(x.Real());
    DotSelfNonNegative(x.Imag());
    if x == y then
      Complex(LocalDot(x.Real(), y.Real()) + LocalDot(x.Imag(), y.Imag()), 0.0)
    else
      Complex(LocalDot(x.Real(), y.Real()) + LocalDot(x.Imag(), y.Imag()),
              LocalDot(x.Imag(), y.Real()) - LocalDot(x.Real(), y.Imag()))
  }

  // ---- AXPY and AXPBYPCZ on real vectors ----

  /** Vector::Add(alpha, x): y += alpha x. */
  method AddScaledReal(alpha: real, x: Vec, y: array<real>)
    modifies y
    ensures y[..] == Axpy(alpha, x, old(y[..]))
  {
    var i := 0;
    while i < y.Length
      invariant 0 <= i <= y.Length
      invariant forall k :: 0 <= k < i ==> y[k] == alpha * At(x, k) + old(y[k])
      invariant forall k :: i <= k < y.Length ==> y[k] == old(y[k])
    {
      y[i] := y[i] + alpha * At(x, i);
      i := i + 1;
    }
    ghost var r := Axpy(alpha, x, old(y[..]));
    assert |r| == y.Length;
    assert forall k :: 0 <= k < y.Length ==> r[k] == alpha * At(x, k) + old(y[k]);
    assert y[..] == r;
  }

  /** AXPY(alpha, x, y) on real vectors: y += x when alpha is 1, y.Add(alpha, x)
      otherwise; both branches give y + alpha x. */
  method AxpyReal(alpha: real, x: Vec, y: array<real>)
    modifies y
    ensures y[..] == Axpy(alpha, x, old(y[..]))
  {
    if alpha == 1.0 {
      var i := 0;
      while i < y.Length
        invariant 0 <= i <= y.Length
        invariant forall k :: 0 <= k < i ==> y[k] == At(x, k) + old(y[k])
        invariant forall k :: i <= k < y.Length ==> y[k] == old(y[k])
      {
        y[i] := y[i] + At(x, i);
        i := i + 1;
      }
    } else {
      AddScaledReal(alpha, x, y);
    }
  }

  /** AXPBY(alpha, x, gamma, z) on real vectors, mfem add(alpha, x, gamma, z, z). */
  method AxpbyReal(alpha: real, x: Vec, gamma: real, z: array<real>)
    modifies z
    ensures z[..] == Axpby(alpha, x, gamma, old(z[..]))
  {
    var i := 0;
    while i < z.Length
      invariant 0 <= i <= z.Length
      invariant forall k :: 0 <= k < i ==> z[k] == alpha * At(x, k) + gamma * old(z[k])
      invariant forall k :: i <= k < z.Length ==> z[k] == old(z[k])
    {
      z[i] := alpha * At(x, i) + gamma * z[i];
      i := i + 1;
    }
    assert forall k :: 0 <= k < z.Length ==> z[..][k] == Axpby(alpha, x, gamma, old(z[..]))[k];
  }

  /** AXPBYPCZ(alpha, x, beta, y, gamma, z) on real vectors: with gamma 0 the sum
      alpha x + beta y is written over z; otherwise AXPBY and then Add. Both give
      alpha x + beta y + gamma z. */
  method AxpbypczReal(alpha: real, x: Vec, beta: real, y: Vec, gamma: real, z: array<real>)
    modifies z
    ensures z[..] == Axpbypcz(alpha, x, beta, y, gamma, old(z[..]))
  {
    if gamma == 0.0 {
      var i := 0;
      while i < z.Length
        invariant 0 <= i <= z.Length
        invariant forall k :: 0 <= k < i ==> z[k] == alpha * At(x, k) + beta * At(y, k) + gamma * old(z[k])
        invariant forall k :: i <= k < z.Length ==> z[k] == old(z[k])
      {
        z[i] := alpha * At(x, i) + beta * At(y, i);
        i := i + 1;
      }
      assert forall k :: 0 <= k < z.Length ==> z[..][k] == Axpbypcz(alpha, x, beta, y, gamma, old(z[..]))[k];
    } else {
      AxpbyReal(alpha, x, gamma, z);
      AddScaledReal(beta, y, z);
      AxpbyThenAxpy(alpha, x, beta, y, gamma, old(z[..]));
    }
  }
}
