/** palace::ComplexVector: a complex vector stored as a real part xr and an
    imaginary part xi, two arrays of equal size. Every kernel of the source is
    an element-wise loop over both arrays, written here as a `while` loop. */
module ComplexVectors {
  import opened Scalars
  import opened RealVectors

  /** A read-only complex vector passed by value (a `const ComplexVector &`). */
  datatype Block = Block(re: Vec, im: Vec)

  /** A std::complex array seen as reals through reinterpret_cast:
      re0, im0, re1, im1, ... */
  function Interleave(a: Vec, b: Vec): (y: Vec)
    requires |a| == |b|
    ensures |y| == 2 * |a|
  {
    seq(2 * |a|, k requires 0 <= k < 2 * |a| => if k % 2 == 0 then a[k / 2] else b[k / 2])
  }

  /** The real parts of an interleaved array. */
  function Evens(y: Vec): (a: Vec)
    ensures |a| == |y| / 2
  {
    seq(|y| / 2, i requires 0 <= i < |y| / 2 => y[2 * i])
  }

  /** The imaginary parts of an interleaved array. */
  function Odds(y: Vec): (b: Vec)
    ensures |b| == |y| / 2
  {
    seq(|y| / 2, i requires 0 <= i < |y| / 2 => y[2 * i + 1])
  }

  /** Splitting an interleaved array recovers both parts. */
  lemma SplitInterleave(a: Vec, b: Vec)
    requires |a| == |b|
    ensures Evens(Interleave(a, b)) == a && Odds(Interleave(a, b)) == b
  {
    var y := Interleave(a, b);
    forall i | 0 <= i < |a|
      ensures Evens(y)[i] == a[i] && Odds(y)[i] == b[i]
    {
      assert (2 * i) % 2 == 0 && (2 * i) / 2 == i;
      assert (2 * i + 1) % 2 == 1 && (2 * i + 1) / 2 == i;
    }
  }

  /** Interleaving the two halves of an even-length array gives it back. */
  lemma InterleaveSplit(y: Vec)
    requires |y| % 2 == 0
    ensures Interleave(Evens(y), Odds(y)) == y
  {
    var r := Interleave(Evens(y), Odds(y));
    forall k | 0 <= k < |y|
      ensures r[k] == y[k]
    {
      if k % 2 == 0 {
        assert 2 * (k / 2) == k;
      } else {
        assert 2 * (k / 2) + 1 == k;
      }
    }
  }

  /** Real part of s * x, entrywise, for x = xr + i xi (the general formula). */
  function MulRe(s: Complex, xr: Vec, xi: Vec): (r: Vec)
    requires |xr| == |xi|
    ensures |r| == |xr|
  {
    seq(|xr|, i requires 0 <= i < |xr| => Mul(s, Complex(xr[i], xi[i])).re)
  }

  /** Imaginary part of s * x, entrywise (the general formula). */
  function MulIm(s: Complex, xr: Vec, xi: Vec): (r: Vec)
    requires |xr| == |xi|
    ensures |r| == |xr|
  {
    seq(|xr|, i requires 0 <= i < |xr| => Mul(s, Complex(xr[i], xi[i])).im)
  }

  function Plus(y: Vec, d: Vec): (r: Vec)
    requires |y| == |d|
    ensures |r| == |y|
  {
    seq(|y|, i requires 0 <= i < |y| => y[i] + d[i])
  }

  function Negated(x: Vec): (r: Vec)
    ensures |r| == |x|
  {
    seq(|x|, i requires 0 <= i < |x| => -x[i])
  }

  /** Conjugating twice gives the vector back. */
  lemma NegatedTwice(x: Vec)
    ensures Negated(Negated(x)) == x
  {
  }

  /** With a real scalar (imaginary part 0) the general product reduces to
      scaling both parts by the real part: the fast paths of `*=` and AXPY. */
  lemma RealScalarProduct(s: Complex, xr: Vec, xi: Vec)
    requires |xr| == |xi| && s.im == 0.0
    ensures MulRe(s, xr, xi) == Scaled(s.re, xr) && MulIm(s, xr, xi) == Scaled(s.re, xi)
  {
    forall i | 0 <= i < |xr|
      ensures MulRe(s, xr, xi)[i] == Scaled(s.re, xr)[i] && MulIm(s, xr, xi)[i] == Scaled(s.re, xi)[i]
    {
      assert s.im * xi[i] == 0.0 && s.im * xr[i] == 0.0;
    }
  }

  // ---- SetBlocks specification ----

  function BlockLen(y: seq<Option<Block>>, b: nat): nat
    requires b < |y|
  {
    match y[b]
    case Some(blk) => |blk.re|
    case None => 0
  }

  /** Total size of blocks 0 .. b-1. */
  function PrefixLen(y: seq<Option<Block>>, b: nat): nat
    requires b <= |y|
  {
    if b == 0 then 0 else PrefixLen(y, b - 1) + BlockLen(y, b - 1)
  }

  /** The check made for block b inside the loop of SetBlocks: the block exists,
      and an earlier block ends strictly before n while the last ends at n. */
  predicate BlockFits(y: seq<Option<Block>>, b: nat, n: nat)
    requires b < |y|
  {
    && y[b].Some?
    && ((b < |y| - 1 && PrefixLen(y, b) + BlockLen(y, b) < n)
        || (b == |y| - 1 && PrefixLen(y, b) + BlockLen(y, b) == n))
  }

  predicate AllBlocksFit(y: seq<Option<Block>>, n: nat) {
    forall b :: 0 <= b < |y| ==> BlockFits(y, b, n)
  }

  predicate WellFormedBlocks(y: seq<Option<Block>>) {
    forall b :: 0 <= b < |y| && y[b].Some? ==> |y[b].value.re| == |y[b].value.im|
  }

  /** The scale of block b: s[b], or 1 when no scales are given. */
  function ScaleOf(s: seq<Complex>, b: nat): Complex {
    if s == [] || b >= |s| then Complex(1.0, 0.0) else s[b]
  }

  /** Real parts of s[c] * y[c] for blocks c < b, concatenated. */
  function ConcatRe(y: seq<Option<Block>>, s: seq<Complex>, b: nat): (r: Vec)
    requires b <= |y| && WellFormedBlocks(y)
    ensures |r| == PrefixLen(y, b)
  {
    if b == 0 then []
    else ConcatRe(y, s, b - 1) + match y[b - 1]
      case Some(blk) => MulRe(ScaleOf(s, b - 1), blk.re, blk.im)
      case None => []
  }

  /** Imaginary parts of s[c] * y[c] for blocks c < b, concatenated. */
  function ConcatIm(y: seq<Option<Block>>, s: seq<Complex>, b: nat): (r: Vec)
    requires b <= |y| && WellFormedBlocks(y)
    ensures |r| == PrefixLen(y, b)
  {
    if b == 0 then []
    else ConcatIm(y, s, b - 1) + match y[b - 1]
      case Some(blk) => MulIm(ScaleOf(s, b - 1), blk.re, blk.im)
      case None => []
  }

  /** Block b extends the concatenations by s[b] * y[b]. */
  lemma ConcatStep(y: seq<Option<Block>>, s: seq<Complex>, b: nat)
    requires b < |y| && WellFormedBlocks(y) && y[b].Some?
    ensures ConcatRe(y, s, b + 1) == ConcatRe(y, s, b) + MulRe(ScaleOf(s, b), y[b].value.re, y[b].value.im)
    ensures ConcatIm(y, s, b + 1) == ConcatIm(y, s, b) + MulIm(ScaleOf(s, b), y[b].value.re, y[b].value.im)
  {
  }

  /** When every block passes the check, the block sizes add up to exactly n
      and every block but the last ends strictly inside the vector. */
  lemma {:induction false} FittingBlocksCover(y: seq<Option<Block>>, n: nat)
    requires |y| > 0 && AllBlocksFit(y, n)
    ensures PrefixLen(y, |y|) == n
    ensures forall b :: 0 < b < |y| ==> PrefixLen(y, b) < n
  {
    assert BlockFits(y, |y| - 1, n);
    forall b | 0 < b < |y|
      ensures PrefixLen(y, b) < n
    {
      assert BlockFits(y, b - 1, n);
    }
  }

  /** MakeRef(y, offset, size), on values: the real part views y[offset, offset+size)
      and the imaginary part views y[offset+size, offset+2*size). */
  function RefParts(y: Vec, offset: nat, size: nat): (b: Block)
    requires |y| >= offset + 2 * size
    ensures |b.re| == size && |b.im| == size
    ensures forall i :: 0 <= i < size ==> b.re[i] == y[offset + i] && b.im[i] == y[offset + size + i]
  {
    Block(y[offset..offset + size], y[offset + size..offset + 2 * size])
  }

  // ---- the class ----

  class ComplexVector {
    var xr: array<real>
    var xi: array<real>

    ghost predicate Valid()
      reads this
    {
      xr != xi && xr.Length == xi.Length
    }

    function Size(): nat
      reads this
    {
      xr.Length
    }

    function Real(): Vec
      reads this, xr
    {
      xr[..]
    }

    function Imag(): Vec
      reads this, xi
    {
      xi[..]
    }

    /** ComplexVector(int size). */
    constructor (n: nat)
      ensures Valid() && fresh(xr) && fresh(xi) && Size() == n
    {
      xr := new real[n];
      xi := new real[n];
    }

    /** Set(py, size): copy from an interleaved std::complex array. */
    method Set(py: Vec, n: int)
      requires Valid() && n == Size() && |py| >= 2 * n
      modifies xr, xi
      ensures Real() == Evens(py[..2 * n]) && Imag() == Odds(py[..2 * n])
    {
      var i := 0;
      while i < n
        invariant 0 <= i <= n
        invariant forall k :: 0 <= k < i ==> xr[k] == py[2 * k] && xi[k] == py[2 * k + 1]
      {
        xr[i] := py[2 * i];
        xi[i] := py[2 * i + 1];
        i := i + 1;
      }
      assert Real() == Evens(py[..2 * n]);
      assert Imag() == Odds(py[..2 * n]);
    }

    /** Get(py, size): write both parts into an interleaved std::complex array. */
    method Get(py: array<real>, n: int)
      requires Valid() && n == Size() && py.Length >= 2 * n && py != xr && py != xi
      modifies py
      ensures py[..2 * n] == Interleave(Real(), Imag())
      ensures py[2 * n..] == old(py[2 * n..])
    {
      ghost var y := Interleave(Real(), Imag());
      var i := 0;
      while i < n
        invariant 0 <= i <= n
        invariant forall k :: 0 <= k < 2 * i ==> py[k] == y[k]
        invariant forall k :: 2 * i <= k < py.Length ==> py[k] == old(py[k])
      {
        py[2 * i] := xr[i];
        py[2 * i + 1] := xi[i];
        assert (2 * i) / 2 == i && (2 * i + 1) / 2 == i && (2 * i + 1) % 2 == 1;
        i := i + 1;
      }
    }

    /** Set(yr, yi) and Set(y): copy both parts. */
    method SetParts(yr: Vec, yi: Vec)
      requires Valid() && |yr| == Size() && |yi| == Size()
      modifies xr, xi
      ensures Real() == yr && Imag() == yi
    {
      var i := 0;
      while i < xr.Length
        invariant 0 <= i <= xr.Length
        invariant forall k :: 0 <= k < i ==> xr[k] == yr[k] && xi[k] == yi[k]
      {
        xr[i] := yr[i];
        xi[i] := yi[i];
        i := i + 1;
      }
      assert Real() == yr && Imag() == yi;
    }

    /** operator=(s): every entry becomes s. */
    method Fill(s: Complex)
      requires Valid()
      modifies xr, xi
      ensures Real() == seq(Size(), _ => s.re) && Imag() == seq(Size(), _ => s.im)
    {
      var i := 0;
      while i < xr.Length
        invariant 0 <= i <= xr.Length
        invariant forall k :: 0 <= k < i ==> xr[k] == s.re && xi[k] == s.im
      {
        xr[i] := s.re;
        xi[i] := s.im;
        i := i + 1;
      }
      assert Real() == seq(Size(), _ => s.re) && Imag() == seq(Size(), _ => s.im);
    }

    /** One block of SetBlocks: s * blk is written at positions at .. at+|blk|
        of both parts, after the blocks already written (pr, pi). */
    method WriteBlock(at: nat, s: Complex, blk: Block, ghost pr: Vec, ghost pi: Vec)
      requires Valid() && |blk.re| == |blk.im| && at + |blk.re| <= Size() && |pr| == at && |pi| == at
      requires forall k :: 0 <= k < at ==> xr[k] == pr[k] && xi[k] == pi[k]
      modifies xr, xi
      ensures forall k :: 0 <= k < at + |blk.re| ==>
        xr[k] == (pr + MulRe(s, blk.re, blk.im))[k] && xi[k] == (pi + MulIm(s, blk.re, blk.im))[k]
    {
      var n := |blk.re|;
      var i := 0;
      while i < n
        invariant 0 <= i <= n
        invariant forall k :: at <= k < at + i ==>
          xr[k] == MulRe(s, blk.re, blk.im)[k - at] && xi[k] == MulIm(s, blk.re, blk.im)[k - at]
        invariant forall k :: 0 <= k < at ==> xr[k] == pr[k] && xi[k] == pi[k]
      {
        xr[at + i] := s.re * blk.re[i] - s.im * blk.im[i];
        xi[at + i] := s.im * blk.re[i] + s.re * blk.im[i];
        i := i + 1;
      }
    }

    /** Block b of SetBlocks, written after blocks 0 .. b-1: the parts then
        begin with the concatenation of blocks 0 .. b. */
    method AppendBlock(y: seq<Option<Block>>, s: seq<Complex>, b: nat)
      requires Valid() && WellFormedBlocks(y) && b < |y| && y[b].Some?
      requires PrefixLen(y, b + 1) <= Size()
      requires forall k :: 0 <= k < PrefixLen(y, b) ==> xr[k] == ConcatRe(y, s, b)[k] && xi[k] == ConcatIm(y, s, b)[k]
      modifies xr, xi
      ensures forall k :: 0 <= k < PrefixLen(y, b + 1) ==>
        xr[k] == ConcatRe(y, s, b + 1)[k] && xi[k] == ConcatIm(y, s, b + 1)[k]
    {
      WriteBlock(PrefixLen(y, b), ScaleOf(s, b), y[b].value, ConcatRe(y, s, b), ConcatIm(y, s, b));
      ConcatStep(y, s, b);
    }

    /** SetBlocks(y, s): the vector becomes the concatenation of s[b] * y[b]
        (scale 1 when s is empty). A missing block, or block sizes that do not
        add up to Size() with every earlier block ending strictly inside, is
        fatal. With no blocks nothing is written. */
    method SetBlocks(y: seq<Option<Block>>, s: seq<Complex>) returns (status: Status)
      requires Valid() && (s == [] || |y| == |s|) && WellFormedBlocks(y)
      modifies xr, xi
      ensures status == if AllBlocksFit(y, Size()) then Done else Failed(BlockSizeMismatch)
      ensures status.Done? && |y| > 0 ==> Real() == ConcatRe(y, s, |y|) && Imag() == ConcatIm(y, s, |y|)
      ensures |y| == 0 ==> Real() == old(Real()) && Imag() == old(Imag())
    {
      var off := 0;
      var b := 0;
      while b < |y|
        invariant 0 <= b <= |y|
        invariant off == PrefixLen(y, b) && off <= xr.Length
        invariant forall c :: 0 <= c < b ==> BlockFits(y, c, xr.Length)
        invariant forall k :: 0 <= k < off ==> xr[k] == ConcatRe(y, s, b)[k] && xi[k] == ConcatIm(y, s, b)[k]
        invariant b == 0 ==> Real() == old(Real()) && Imag() == old(Imag())
      {
        if !BlockFits(y, b, xr.Length) {
          status := Failed(BlockSizeMismatch);
          return;
        }
        AppendBlock(y, s, b);
        off := off + |y[b].value.re|;
        b := b + 1;
      }
      status := Done;
      if |y| > 0 {
        FittingBlocksCover(y, xr.Length);
        assert Real() == ConcatRe(y, s, |y|) && Imag() == ConcatIm(y, s, |y|);
      }
    }

    /** operator*=(s). A real s takes the fast path (both parts scaled by s.re);
        either way the result is the complex product s * x. */
    method Scale(s: Complex)
      requires Valid()
      modifies xr, xi
      ensures Real() == MulRe(s, old(Real()), old(Imag())) && Imag() == MulIm(s, old(Real()), old(Imag()))
    {
      if s.im == 0.0 {
        ScaleByReal(s.re);
        RealScalarProduct(s, old(Real()), old(Imag()));
      } else {
        ScaleByComplex(s);
      }
    }

    /** The fast path of operator*=: Real() *= r and Imag() *= r. */
    method ScaleByReal(r: real)
      requires Valid()
      modifies xr, xi
      ensures Real() == Scaled(r, old(Real())) && Imag() == Scaled(r, old(Imag()))
    {
      var i := 0;
      while i < xr.Length
        invariant 0 <= i <= xr.Length
        invariant forall k :: 0 <= k < i ==> xr[k] == Scaled(r, old(Real()))[k] && xi[k] == Scaled(r, old(Imag()))[k]
        invariant forall k :: i <= k < xr.Length ==> xr[k] == old(xr[k]) && xi[k] == old(xi[k])
      {
        xr[i] := r * xr[i];
        xi[i] := r * xi[i];
        i := i + 1;
      }
      assert Real() == Scaled(r, old(Real()));
      assert Imag() == Scaled(r, old(Imag()));
    }

    /** The general kernel of operator*=. */
    method ScaleByComplex(s: Complex)
      requires Valid()
      modifies xr, xi
      ensures Real() == MulRe(s, old(Real()), old(Imag())) && Imag() == MulIm(s, old(Real()), old(Imag()))
    {
      var i := 0;
      while i < xr.Length
        invariant 0 <= i <= xr.Length
        invariant forall k :: 0 <= k < i ==>
          xr[k] == Mul(s, Complex(old(xr[k]), old(xi[k]))).re && xi[k] == Mul(s, Complex(old(xr[k]), old(xi[k]))).im
        invariant forall k :: i <= k < xr.Length ==> xr[k] == old(xr[k]) && xi[k] == old(xi[k])
      {
        ghost var c := Complex(xr[i], xi[i]);
        var t := s.im * xr[i] + s.re * xi[i];
        xr[i] := s.re * xr[i] - s.im * xi[i];
        xi[i] := t;
        assert xr[i] == Mul(s, c).re && xi[i] == Mul(s, c).im;
        i := i + 1;
      }
      assert Real() == MulRe(s, old(Real()), old(Imag()));
      assert Imag() == MulIm(s, old(Real()), old(Imag()));
    }

    /** Conj(): negates the imaginary part only. */
    method Conj()
      requires Valid()
      modifies xi
      ensures Imag() == Negated(old(Imag()))
    {
      var i := 0;
      while i < xi.Length
        invariant 0 <= i <= xi.Length
        invariant forall k :: 0 <= k < i ==> xi[k] == -old(xi[k])
        invariant forall k :: i <= k < xi.Length ==> xi[k] == old(xi[k])
      {
        xi[i] := -1.0 * xi[i];
        i := i + 1;
      }
      assert Imag() == Negated(old(Imag()));
    }

    /** AXPY(alpha, x): this += alpha * x, with x = xRe + i xIm given by value; this
        vector, the one updated, is the source's y.
        A real alpha takes the fast path; either way the update is the complex product. */
    method Axpy(alpha: Complex, xRe: Vec, xIm: Vec)
      requires Valid() && |xRe| == Size() && |xIm| == Size()
      modifies xr, xi
      ensures Real() == Plus(old(Real()), MulRe(alpha, xRe, xIm))
      ensures Imag() == Plus(old(Imag()), MulIm(alpha, xRe, xIm))
    {
      if alpha.im == 0.0 {
        AxpyByReal(alpha.re, xRe, xIm);
        RealScalarProduct(alpha, xRe, xIm);
      } else {
        AxpyByComplex(alpha, xRe, xIm);
      }
    }

    /** The ai == 0 kernel of AXPY: both parts get ar times the matching part of x. */
    method AxpyByReal(ar: real, xRe: Vec, xIm: Vec)
      requires Valid() && |xRe| == Size() && |xIm| == Size()
      modifies xr, xi
      ensures Real() == Plus(old(Real()), Scaled(ar, xRe)) && Imag() == Plus(old(Imag()), Scaled(ar, xIm))
    {
      var i := 0;
      while i < xr.Length
        invariant 0 <= i <= xr.Length
        invariant forall k :: 0 <= k < i ==>
          xr[k] == old(xr[k]) + Scaled(ar, xRe)[k] && xi[k] == old(xi[k]) + Scaled(ar, xIm)[k]
        invariant forall k :: i <= k < xr.Length ==> xr[k] == old(xr[k]) && xi[k] == old(xi[k])
      {
        xr[i] := xr[i] + ar * xRe[i];
        xi[i] := xi[i] + ar * xIm[i];
        i := i + 1;
      }
      assert Real() == Plus(old(Real()), Scaled(ar, xRe));
      assert Imag() == Plus(old(Imag()), Scaled(ar, xIm));
    }

    /** The general kernel of AXPY. */
    method AxpyByComplex(alpha: Complex, xRe: Vec, xIm: Vec)
      requires Valid() && |xRe| == Size() && |xIm| == Size()
      modifies xr, xi
      ensures Real() == Plus(old(Real()), MulRe(alpha, xRe, xIm))
      ensures Imag() == Plus(old(Imag()), MulIm(alpha, xRe, xIm))
    {
      var i := 0;
      while i < xr.Length
        invariant 0 <= i <= xr.Length
        invariant forall k :: 0 <= k < i ==>
          xr[k] == old(xr[k]) + Mul(alpha, Complex(xRe[k], xIm[k])).re &&
          xi[k] == old(xi[k]) + Mul(alpha, Complex(xRe[k], xIm[k])).im
        invariant forall k :: i <= k < xr.Length ==> xr[k] == old(xr[k]) && xi[k] == old(xi[k])
      {
        var t := alpha.im * xRe[i] + alpha.re * xIm[i];
        xr[i] := xr[i] + (alpha.re * xRe[i] - alpha.im * xIm[i]);
        xi[i] := xi[i] + t;
        i := i + 1;
      }
      assert Real() == Plus(old(Real()), MulRe(alpha, xRe, xIm));
      assert Imag() == Plus(old(Imag()), MulIm(alpha, xRe, xIm));
    }

    /** Dot(y) = yᴴ x. The self-product (`this == &y`) takes a shortcut for the
        imaginary part, which is 0; the general formula holds in both cases. */
    function Dot(y: ComplexVector): (r: Complex)
      reads this, xr, xi, y, y.xr, y.xi
      requires Valid() && y.Valid() && y.Size() == Size()
      ensures r.re == RealVectors.Dot(Real(), y.Real()) + RealVectors.Dot(Imag(), y.Imag())
      ensures r.im == RealVectors.Dot(Imag(), y.Real()) - RealVectors.Dot(Real(), y.Imag())
      ensures this == y ==> r.im == 0.0 && r.re == NormSq(Real()) + NormSq(Imag())
    {
      DotSymmetric(Imag(), Real());
      Complex(RealVectors.Dot(Real(), y.Real()) + RealVectors.Dot(Imag(), y.Imag()),
              if this == y then 0.0
              else RealVectors.Dot(Imag(), y.Real()) - RealVectors.Dot(Real(), y.Imag()))
    }

    /** TransposeDot(y) = yᵀ x. The self-product takes the shortcut
        2 (Im · Re) for the imaginary part; the general formula holds in both cases. */
    function TransposeDot(y: ComplexVector): (r: Complex)
      reads this, xr, xi, y, y.xr, y.xi
      requires Valid() && y.Valid() && y.Size() == Size()
      ensures r.re == RealVectors.Dot(Real(), y.Real()) - RealVectors.Dot(Imag(), y.Imag())
      ensures r.im == RealVectors.Dot(Imag(), y.Real()) + RealVectors.Dot(Real(), y.Imag())
      ensures this == y ==> r.im == 2.0 * RealVectors.Dot(Imag(), Real())
    {
      DotSymmetric(Imag(), Real());
      Complex(RealVectors.Dot(Real(), y.Real()) - RealVectors.Dot(Imag(), y.Imag()),
              if this == y then 2.0 * RealVectors.Dot(Imag(), y.Real())
              else RealVectors.Dot(Imag(), y.Real()) + RealVectors.Dot(Real(), y.Imag()))
    }
  }

  /** Writing a vector out with Get and reading the array back with Set leaves
      the vector's parts as they were. */
  method GetThenSet(v: ComplexVector, py: array<real>)
    requires v.Valid() && py.Length >= 2 * v.Size() && py != v.xr && py != v.xi
    modifies py, v.xr, v.xi
    ensures v.Real() == old(v.Real()) && v.Imag() == old(v.Imag())
  {
    ghost var re, im := v.Real(), v.Imag();
    v.Get(py, v.Size());
    SplitInterleave(re, im);
    v.Set(py[..], v.Size());
    assert py[..][..2 * v.Size()] == py[..2 * v.Size()];
  }

  /** Conjugating twice gives the vector back. */
  method ConjTwice(v: ComplexVector)
    requires v.Valid()
    modifies v.xi
    ensures v.Real() == old(v.Real()) && v.Imag() == old(v.Imag())
  {
    v.Conj();
    v.Conj();
    NegatedTwice(old(v.Imag()));
  }
}
