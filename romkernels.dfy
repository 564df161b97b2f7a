/** The numerical kernels of the reduced-order model (palace/models/romoperator.cpp):
    the incremental Galerkin projection of an operator and of a vector onto the real
    basis V, the index selection of the minimal rational interpolation, the grid
    scan for the maximum error, and the expansion of a reduced solution in the basis.

    Operators, the singular value decomposition and the error surrogate are
    collaborators given as functions; inner products are the local sums of
    RealVectors.Dot (one process: the global sum is the identity). */
module RomKernels {
  import opened Scalars
  import opened RealVectors
  import opened ComplexVectors
  import opened Linalg
  import opened Dense

  /** ORTHOG_TOL. */
  const OrthogTol: real := 0.000000000001

  /** A ComplexOperator: an optional real part and an optional imaginary part,
      each applied to a real vector (HasReal/Real()->Mult, HasImag/Imag()->Mult). */
  datatype ComplexOperator = ComplexOperator(re: Option<Vec -> Vec>, im: Option<Vec -> Vec>)
  {
    predicate NonZero() {
      re.Some? || im.Some?
    }
  }

  /** vi · (A vj), part by part; a missing part contributes 0. */
  function Entry(A: ComplexOperator, vi: Vec, vj: Vec): Complex {
    Complex(if A.re.Some? then Dot(vi, A.re.value(vj)) else 0.0,
            if A.im.Some? then Dot(vi, A.im.value(vj)) else 0.0)
  }

  /** vi · b, part by part. */
  function VecEntry(vi: Vec, b: Block): Complex {
    Complex(Dot(vi, b.re), Dot(vi, b.im))
  }

  // ---- ProjectMatInternal ----

  /** What one call of ProjectMatInternal computes for n0 -> n: every new column j
      holds vi · A vj, and the new rows left of column n0 hold the transpose of the
      old columns' new entries. */
  ghost predicate ProjectedFrom(V: seq<Vec>, A: ComplexOperator, Ar: array2<Complex>, n0: nat)
    reads Ar
    requires Ar.Length0 == Ar.Length1 <= |V|
  {
    (forall i, j :: 0 <= i < Ar.Length0 && n0 <= j < Ar.Length0 ==> Ar[i, j] == Entry(A, V[i], V[j])) &&
    (forall i, j :: n0 <= i < Ar.Length0 && 0 <= j < n0 ==> Ar[i, j] == Entry(A, V[j], V[i]))
  }

  /** Column j of Ar becomes vi · A vj for every row i. */
  method FillColumn(V: seq<Vec>, A: ComplexOperator, Ar: array2<Complex>, j: nat)
    requires Ar.Length0 == Ar.Length1 <= |V| && j < Ar.Length1
    modifies Ar
    ensures forall i :: 0 <= i < Ar.Length0 ==> Ar[i, j] == Entry(A, V[i], V[j])
    ensures forall i, k :: 0 <= i < Ar.Length0 && 0 <= k < Ar.Length1 && k != j ==> Ar[i, k] == old(Ar[i, k])
  {
    var wr: Vec := if A.re.Some? then A.re.value(V[j]) else [];
    var wi: Vec := if A.im.Some? then A.im.value(V[j]) else [];
    var i := 0;
    while i < Ar.Length0
      invariant 0 <= i <= Ar.Length0
      invariant forall l :: 0 <= l < i ==> Ar[l, j] == Entry(A, V[l], V[j])
      invariant forall l, k :: 0 <= l < Ar.Length0 && 0 <= k < Ar.Length1 && (k != j || l >= i) ==> Ar[l, k] == old(Ar[l, k])
    {
      Ar[i, j] := Complex(if A.re.Some? then Dot(V[i], wr) else 0.0, if A.im.Some? then Dot(V[i], wi) else 0.0);
      i := i + 1;
    }
  }

  /** Rows n0 .. n-1 of column j (j < n0) become the transpose of row j. */
  method MirrorColumn(Ar: array2<Complex>, n0: nat, j: nat)
    requires Ar.Length0 == Ar.Length1 && j < n0 <= Ar.Length0
    modifies Ar
    ensures forall i :: n0 <= i < Ar.Length0 ==> Ar[i, j] == old(Ar[j, i])
    ensures forall i, k :: 0 <= i < Ar.Length0 && 0 <= k < Ar.Length1 && (k != j || i < n0) ==> Ar[i, k] == old(Ar[i, k])
  {
    var i := n0;
    while i < Ar.Length0
      invariant n0 <= i <= Ar.Length0
      invariant forall l :: n0 <= l < i ==> Ar[l, j] == old(Ar[j, l])
      invariant forall l, k :: 0 <= l < Ar.Length0 && 0 <= k < Ar.Length1 && (k != j || l < n0 || l >= i) ==> Ar[l, k] == old(Ar[l, k])
    {
      Ar[i, j] := Ar[j, i];
      i := i + 1;
    }
  }

  /** ProjectMatInternal(V, A, Ar, n0): for the basis growing from n0 to n vectors
      (n the order of Ar), fills the new columns of Vᵀ A V and mirrors them into
      the new rows, leaving the leading n0 x n0 block alone. Fatal unless n0 < n,
      and fatal for an operator with neither a real nor an imaginary part. */
  method ProjectMatInternal(V: seq<Vec>, A: ComplexOperator, Ar: array2<Complex>, n0: nat) returns (status: Status)
    requires Ar.Length0 == Ar.Length1 <= |V|
    modifies Ar
    ensures status == if n0 >= Ar.Length0 then Failed(InvalidProjectionDims)
                      else if !A.NonZero() then Failed(ZeroOperator)
                      else Done
    ensures status.Failed? ==> forall i, j :: 0 <= i < Ar.Length0 && 0 <= j < Ar.Length1 ==> Ar[i, j] == old(Ar[i, j])
    ensures status.Done? ==> ProjectedFrom(V, A, Ar, n0)
    ensures forall i, j :: 0 <= i < n0 && 0 <= j < n0 && i < Ar.Length0 && j < Ar.Length1 ==> Ar[i, j] == old(Ar[i, j])
  {
    var n := Ar.Length0;
    if n0 >= n {
      return Failed(InvalidProjectionDims);
    }
    var j := n0;
    while j < n
      invariant n0 <= j <= n
      invariant !A.NonZero() ==> j == n0
      invariant forall i, k :: 0 <= i < n && n0 <= k < j ==> Ar[i, k] == Entry(A, V[i], V[k])
      invariant forall i, k :: 0 <= i < n && 0 <= k < n && (k < n0 || k >= j) ==> Ar[i, k] == old(Ar[i, k])
    {
      if !A.NonZero() {
        return Failed(ZeroOperator);
      }
      FillColumn(V, A, Ar, j);
      j := j + 1;
    }
    j := 0;
    while j < n0
      invariant 0 <= j <= n0
      invariant forall i, k :: 0 <= i < n && n0 <= k < n ==> Ar[i, k] == Entry(A, V[i], V[k])
      invariant forall i, k :: n0 <= i < n && 0 <= k < j ==> Ar[i, k] == Entry(A, V[k], V[i])
      invariant forall i, k :: 0 <= i < n0 && 0 <= k < n0 ==> Ar[i, k] == old(Ar[i, k])
      invariant forall i, k :: n0 <= i < n && j <= k < n0 ==> Ar[i, k] == old(Ar[i, k])
    {
      MirrorColumn(Ar, n0, j);
      j := j + 1;
    }
    return Done;
  }

  // ---- the projected matrix kept across updates ----

  /** Entry (i, j) of a matrix grown by ProjectMatInternal one update at a time,
      where born[k] numbers the update that added basis vector k: vi · A vj, except
      below the diagonal across two updates, where the older column's value
      vj · A vi was mirrored in. */
  function Galerkin(A: ComplexOperator, V: seq<Vec>, born: seq<nat>, i: nat, j: nat): Complex
    requires i < |V| && j < |V| && i < |born| && j < |born|
  {
    if born[j] < born[i] then Entry(A, V[j], V[i]) else Entry(A, V[i], V[j])
  }

  /** The n x n matrix Ar is the one kept for A after the updates numbered in born. */
  ghost predicate IsGalerkin(Ar: seq<seq<Complex>>, A: ComplexOperator, V: seq<Vec>, born: seq<nat>, n: nat)
    requires n <= |V| && n <= |born|
  {
    SquareRows(Ar, n) && forall i, j :: 0 <= i < n && 0 <= j < n ==> Ar[i][j] == Galerkin(A, V, born, i, j)
  }

  /** Numbers of updates: nondecreasing, and the last update's vectors (from n0 on)
      all carry one number, larger than every earlier one. */
  predicate Batches(born: seq<nat>, n0: nat)
    requires n0 <= |born|
  {
    (forall k, l :: 0 <= k < n0 <= l < |born| ==> born[k] < born[l]) &&
    (forall k, l :: n0 <= k < |born| && n0 <= l < |born| ==> born[k] == born[l])
  }

  /** The incremental projection is correct: a matrix that held the projection for
      the first n0 basis vectors, after one ProjectMatInternal for n0 -> n, holds
      the projection for all n of them. */
  lemma IncrementalProjection(Ar: array2<Complex>, A: ComplexOperator, V: seq<Vec>, born: seq<nat>, n0: nat)
    requires Ar.Length0 == Ar.Length1 == |born| <= |V| && n0 <= |born|
    requires Batches(born, n0)
    requires forall i, j :: 0 <= i < n0 && 0 <= j < n0 ==> Ar[i, j] == Galerkin(A, V, born, i, j)
    requires ProjectedFrom(V, A, Ar, n0)
    ensures IsGalerkin(Rows(Ar), A, V, born, |born|)
  {
    var n := |born|;
    forall i, j | 0 <= i < n && 0 <= j < n
      ensures Ar[i, j] == Galerkin(A, V, born, i, j)
    {
      if j >= n0 {
        assert !(born[j] < born[i]);
      } else if i >= n0 {
        assert born[j] < born[i];
      }
    }
  }

  /** The kept matrix only depends on the first n basis vectors and their update
      numbers. */
  lemma GalerkinFrame(Ar: seq<seq<Complex>>, A: ComplexOperator, V1: seq<Vec>, V2: seq<Vec>, born1: seq<nat>, born2: seq<nat>, n: nat)
    requires n <= |V1| && n <= |V2| && n <= |born1| && n <= |born2|
    requires V1[..n] == V2[..n] && born1[..n] == born2[..n]
    requires IsGalerkin(Ar, A, V1, born1, n)
    ensures IsGalerkin(Ar, A, V2, born2, n)
  {
    forall i, j | 0 <= i < n && 0 <= j < n
      ensures Galerkin(A, V1, born1, i, j) == Galerkin(A, V2, born2, i, j)
    {
      assert V1[i] == V1[..n][i] && V1[j] == V1[..n][j];
      assert born1[i] == born1[..n][i] && born1[j] == born1[..n][j];
    }
  }

  /** A symmetric operator: both parts are symmetric on the basis vectors. */
  predicate SymmetricOn(A: ComplexOperator, V: seq<Vec>, n: nat)
    requires n <= |V|
  {
    forall i, j :: 0 <= i < n && 0 <= j < n ==> Entry(A, V[i], V[j]) == Entry(A, V[j], V[i])
  }

  /** For a symmetric operator the kept matrix is all of Vᵀ A V, whatever the
      update history. */
  lemma GalerkinOfSymmetric(A: ComplexOperator, V: seq<Vec>, born: seq<nat>, n: nat, i: nat, j: nat)
    requires n <= |V| && n <= |born| && i < n && j < n && SymmetricOn(A, V, n)
    ensures Galerkin(A, V, born, i, j) == Entry(A, V[i], V[j])
    ensures Galerkin(A, V, born, i, j) == Galerkin(A, V, born, j, i)
  {
    assert Entry(A, V[i], V[j]) == Entry(A, V[j], V[i]);
  }

  /** The kept matrix always agrees with Vᵀ A V on and above the diagonal, since a
      column never predates a row above it. */
  lemma GalerkinUpper(A: ComplexOperator, V: seq<Vec>, born: seq<nat>, i: nat, j: nat)
    requires i <= j < |V| && j < |born|
    requires forall k, l :: 0 <= k <= l < |born| ==> born[k] <= born[l]
    ensures Galerkin(A, V, born, i, j) == Entry(A, V[i], V[j])
  {
    assert born[i] <= born[j];
  }

  // ---- ProjectVecInternal ----

  /** ProjectVecInternal(V, b, br, n0): entries n0 .. n-1 of br (n its size) become
      vi · b; the others are left alone. Fatal unless n0 < n. */
  method ProjectVecInternal(V: seq<Vec>, b: Block, br: array<Complex>, n0: nat) returns (status: Status)
    requires br.Length <= |V|
    modifies br
    ensures status == if n0 < br.Length then Done else Failed(InvalidProjectionDims)
    ensures status.Done? ==> forall i :: n0 <= i < br.Length ==> br[i] == VecEntry(V[i], b)
    ensures forall i :: 0 <= i < br.Length && (i < n0 || status.Failed?) ==> br[i] == old(br[i])
  {
    if n0 >= br.Length {
      return Failed(InvalidProjectionDims);
    }
    var i := n0;
    while i < br.Length
      invariant n0 <= i <= br.Length
      invariant forall k :: n0 <= k < i ==> br[k] == VecEntry(V[k], b)
      invariant forall k :: 0 <= k < br.Length && (k < n0 || k >= i) ==> br[k] == old(br[k])
    {
      br[i] := Complex(Dot(V[i], b.re), Dot(V[i], b.im));
      i := i + 1;
    }
    return Done;
  }

  // ---- ComputeMRI ----

  /** A singular value decomposition of an S x S matrix as Eigen's JacobiSVD
      reports it: the singular values and the matrix of right singular vectors. */
  datatype Svd = Svd(sigma: seq<real>, v: seq<seq<Complex>>)

  predicate SvdShaped(d: Svd, S: nat) {
    |d.sigma| == S && |d.v| == S && forall i :: 0 <= i < S ==> |d.v[i]| == S
  }

  /** Column m of an S x S matrix. */
  function Column(v: seq<seq<Complex>>, m: nat): (c: seq<Complex>)
    requires forall i :: 0 <= i < |v| ==> m < |v[i]|
    ensures |c| == |v| && forall i :: 0 <= i < |v| ==> c[i] == v[i][m]
  {
    seq(|v|, i requires 0 <= i < |v| => v[i][m])
  }

  /** The three properties of the selected column: it is an index of sigma, every
      later singular value is below the tolerance relative to sigma[0], and it is
      the first column or its own singular value passes the tolerance. */
  predicate MriIndex(sigma: seq<real>, m: nat) {
    m < |sigma| &&
    (forall k :: m < k < |sigma| ==> sigma[k] < OrthogTol * sigma[0]) &&
    (m == 0 || sigma[m] >= OrthogTol * sigma[0])
  }

  /** The properties determine the index. */
  lemma MriIndexUnique(sigma: seq<real>, m1: nat, m2: nat)
    requires MriIndex(sigma, m1) && MriIndex(sigma, m2)
    ensures m1 == m2
  {
  }

  /** ComputeMRI(R, q): the coefficients q of the minimal rational interpolation are
      the right singular vector of R for the smallest singular value that is not
      negligible, found by walking down from the last one. R must be square and
      nonempty (a debug assertion in the source). */
  method ComputeMRI(R: seq<seq<Complex>>, svd: seq<seq<Complex>> -> Svd) returns (q: seq<Complex>, m: nat)
    requires |R| > 0 && forall i :: 0 <= i < |R| ==> |R[i]| == |R|
    requires SvdShaped(svd(R), |R|)
    ensures MriIndex(svd(R).sigma, m)
    ensures m < |R| && q == Column(svd(R).v, m)
  {
    var d := svd(R);
    var sigma := d.sigma;
    m := |R| - 1;
    while m > 0 && sigma[m] < OrthogTol * sigma[0]
      invariant 0 <= m < |sigma|
      invariant forall k :: m < k < |sigma| ==> sigma[k] < OrthogTol * sigma[0]
    {
      m := m - 1;
    }
    q := Column(d.v, m);
  }

  // ---- FindMaxError ----

  /** Grid point k of the scan. */
  function Grid(start: real, delta: real, k: int): real {
    start + (k as real) * delta
  }

  /** A negative step is turned around, starting from the far end of the grid. */
  function Normalized(start: real, delta: real, numSteps: int): (real, real) {
    if delta < 0.0 then (start + ((numSteps - 1) as real) * delta, -delta) else (start, delta)
  }

  /** The normalized grid is the original one, in ascending order. */
  lemma NormalizedGrid(start: real, delta: real, numSteps: int, k: int)
    requires 0 <= k < numSteps
    ensures Normalized(start, delta, numSteps).1 >= 0.0
    ensures delta < 0.0 ==> Grid(Normalized(start, delta, numSteps).0, Normalized(start, delta, numSteps).1, k)
                            == Grid(start, delta, numSteps - 1 - k)
    ensures delta >= 0.0 ==> Grid(Normalized(start, delta, numSteps).0, Normalized(start, delta, numSteps).1, k)
                             == Grid(start, delta, k)
  {
    if delta < 0.0 {
      var s := start + ((numSteps - 1) as real) * delta;
      assert Grid(s, -delta, k) == start + (((numSteps - 1) as real) - (k as real)) * delta;
    }
  }

  /** A nondecreasing step gives a nondecreasing grid. */
  lemma GridMonotone(start: real, delta: real, j: int, k: int)
    requires delta >= 0.0 && j <= k
    ensures Grid(start, delta, j) <= Grid(start, delta, k)
  {
    assert Grid(start, delta, k) - Grid(start, delta, j) == ((k - j) as real) * delta;
  }

  /** The surrogate at each of the first n grid points; None stands for a value
      that is infinite or not a number and so never compares smaller. */
  function Values(err: real -> Option<real>, start: real, delta: real, n: nat): (vals: seq<Option<real>>)
    ensures |vals| == n && forall k :: 0 <= k < n ==> vals[k] == err(Grid(start, delta, k))
  {
    seq(n, k requires 0 <= k < n => err(Grid(start, delta, k)))
  }

  /** The index a left-to-right scan with a strict comparison settles on: the first
      index of the smallest finite value, or None when no value is finite. */
  function FirstMin(vals: seq<Option<real>>): (r: Option<nat>)
    ensures r.Some? ==> r.value < |vals| && vals[r.value].Some?
    ensures r.None? <==> forall k :: 0 <= k < |vals| ==> vals[k].None?
    ensures r.Some? ==> forall k :: 0 <= k < |vals| && vals[k].Some? ==> vals[r.value].value <= vals[k].value
    ensures r.Some? ==> forall k :: 0 <= k < r.value && vals[k].Some? ==> vals[r.value].value < vals[k].value
    decreases |vals|
  {
    if |vals| == 0 then None
    else
      var n := |vals| - 1;
      var p := FirstMin(vals[..n]);
      assert forall k :: 0 <= k < n ==> vals[..n][k] == vals[k];
      if vals[n].Some? && (p.None? || vals[n].value < vals[p.value].value) then Some(n) else p
  }

  /** The outcome of FindMaxError: the grid point the scan settles on, fatal when
      there is none or it is not positive (omega_star starts at 0). */
  function MaxErrorOutcome(start: real, delta: real, numSteps: int, err: real -> Option<real>): Result<real> {
    var (s, d) := Normalized(start, delta, numSteps);
    var n := if numSteps < 0 then 0 else numSteps;
    match FirstMin(Values(err, s, d, n))
    case None => Err(NoMaxError)
    case Some(k) => if Grid(s, d, k) > 0.0 then Ok(Grid(s, d, k)) else Err(NoMaxError)
  }

  /** FindMaxError's result is a positive point of the original grid where the
      surrogate is smallest; among the points with that smallest value it is the
      lowest. It is fatal when no grid point has a finite surrogate or the chosen
      point is not positive. */
  lemma MaxErrorMeaning(start: real, delta: real, numSteps: int, err: real -> Option<real>)
    ensures var r := MaxErrorOutcome(start, delta, numSteps, err);
      r.Ok? ==>
        r.value > 0.0 && err(r.value).Some? &&
        (exists k :: 0 <= k < numSteps && r.value == Grid(start, delta, k)) &&
        (forall k :: 0 <= k < numSteps && err(Grid(start, delta, k)).Some? ==>
           err(r.value).value <= err(Grid(start, delta, k)).value) &&
        (forall k :: 0 <= k < numSteps && err(Grid(start, delta, k)) == err(r.value) ==>
           r.value <= Grid(start, delta, k))
    ensures (forall k :: 0 <= k < numSteps ==> err(Grid(start, delta, k)).None?) ==>
      MaxErrorOutcome(start, delta, numSteps, err) == Err(NoMaxError)
  {
    var (s, d) := Normalized(start, delta, numSteps);
    var n := if numSteps < 0 then 0 else numSteps;
    var vals := Values(err, s, d, n);
    var r := MaxErrorOutcome(start, delta, numSteps, err);
    // grid point k of the original grid is grid point Back(k) of the normalized one
    forall k | 0 <= k < numSteps
      ensures exists l :: 0 <= l < n && Grid(s, d, l) == Grid(start, delta, k)
    {
      var l := if delta < 0.0 then numSteps - 1 - k else k;
      NormalizedGrid(start, delta, numSteps, l);
    }
    if forall k :: 0 <= k < numSteps ==> err(Grid(start, delta, k)).None? {
      forall l | 0 <= l < n
        ensures vals[l].None?
      {
        var k := if delta < 0.0 then numSteps - 1 - l else l;
        NormalizedGrid(start, delta, numSteps, l);
      }
    }
    if r.Ok? {
      var m := FirstMin(vals).value;
      assert r.value == Grid(s, d, m);
      var km := if delta < 0.0 then numSteps - 1 - m else m;
      NormalizedGrid(start, delta, numSteps, m);
      assert Grid(start, delta, km) == r.value;
      forall k | 0 <= k < numSteps && err(Grid(start, delta, k)).Some?
        ensures err(r.value).value <= err(Grid(start, delta, k)).value
      {
        var l :| 0 <= l < n && Grid(s, d, l) == Grid(start, delta, k);
        assert vals[l] == err(Grid(start, delta, k));
      }
      forall k | 0 <= k < numSteps && err(Grid(start, delta, k)) == err(r.value)
        ensures r.value <= Grid(start, delta, k)
      {
        var l :| 0 <= l < n && Grid(s, d, l) == Grid(start, delta, k);
        assert vals[l] == vals[m];
        NormalizedGrid(start, delta, numSteps, l);
        GridMonotone(s, d, m, l);
      }
    }
  }

  /** Grid point k of the original grid has a finite surrogate, no larger than at any
      other grid point. */
  predicate IsMinimizer(err: real -> Option<real>, start: real, delta: real, numSteps: int, k: int) {
    err(Grid(start, delta, k)).Some? &&
    forall l :: 0 <= l < numSteps && err(Grid(start, delta, l)).Some? ==>
      err(Grid(start, delta, k)).value <= err(Grid(start, delta, l)).value
  }

  /** FindMaxError is fatal only when no grid point has a finite surrogate, or when
      a grid point where the surrogate is smallest is not positive. So it succeeds
      whenever some surrogate value is finite and the whole grid is positive. */
  lemma MaxErrorFailure(start: real, delta: real, numSteps: int, err: real -> Option<real>)
    ensures MaxErrorOutcome(start, delta, numSteps, err).Err? ==>
      (forall k :: 0 <= k < numSteps ==> err(Grid(start, delta, k)).None?) ||
      (exists k :: 0 <= k < numSteps && Grid(start, delta, k) <= 0.0 && IsMinimizer(err, start, delta, numSteps, k))
    ensures (exists k :: 0 <= k < numSteps && err(Grid(start, delta, k)).Some?) &&
            (forall k :: 0 <= k < numSteps ==> Grid(start, delta, k) > 0.0) ==>
      MaxErrorOutcome(start, delta, numSteps, err).Ok?
  {
    var (s, d) := Normalized(start, delta, numSteps);
    var n := if numSteps < 0 then 0 else numSteps;
    var vals := Values(err, s, d, n);
    var r := MaxErrorOutcome(start, delta, numSteps, err);
    if r.Err? {
      if FirstMin(vals).None? {
        forall k | 0 <= k < numSteps
          ensures err(Grid(start, delta, k)).None?
        {
          var j := if delta < 0.0 then numSteps - 1 - k else k;
          NormalizedGrid(start, delta, numSteps, j);
          assert vals[j] == err(Grid(start, delta, k));
        }
      } else {
        var m := FirstMin(vals).value;
        var km := if delta < 0.0 then numSteps - 1 - m else m;
        NormalizedGrid(start, delta, numSteps, m);
        assert Grid(start, delta, km) == Grid(s, d, m);
        forall l | 0 <= l < numSteps && err(Grid(start, delta, l)).Some?
          ensures err(Grid(start, delta, km)).value <= err(Grid(start, delta, l)).value
        {
          var j := if delta < 0.0 then numSteps - 1 - l else l;
          NormalizedGrid(start, delta, numSteps, j);
          assert vals[j] == err(Grid(start, delta, l));
        }
        assert IsMinimizer(err, start, delta, numSteps, km);
      }
    }
  }

  /** The point a scan of the n grid points settles on, or 0 (the initial value of
      omega_star) when no surrogate value is finite. */
  function ScanResult(err: real -> Option<real>, s: real, d: real, n: nat): real {
    match FirstMin(Values(err, s, d, n))
    case None => 0.0
    case Some(k) => Grid(s, d, k)
  }

  /** The scan loop of FindMaxError, with the running best point omega_star and
      value Q_star (None standing for the initial infinity). */
  method Scan(err: real -> Option<real>, s: real, d: real, n: nat) returns (omegaStar: real)
    ensures omegaStar == ScanResult(err, s, d, n)
  {
    omegaStar := 0.0;
    var qStar: Option<real> := None;
    var step := 0;
    ghost var vals := Values(err, s, d, n);
    ghost var best: Option<nat> := None;
    while step < n
      invariant 0 <= step <= n
      invariant best == FirstMin(vals[..step])
      invariant best.None? ==> qStar.None? && omegaStar == 0.0
      invariant best.Some? ==> best.value < step && qStar == vals[best.value] && omegaStar == Grid(s, d, best.value)
    {
      var omega := s + (step as real) * d;
      var Q := err(omega);
      FirstMinSnoc(vals, step);
      if Q.Some? && (qStar.None? || Q.value < qStar.value) {
        omegaStar := omega;
        qStar := Q;
        best := Some(step);
      }
      step := step + 1;
    }
    assert vals[..step] == vals;
  }

  /** FirstMin of one more value: the new value wins only when strictly smaller. */
  lemma FirstMinSnoc(vals: seq<Option<real>>, step: nat)
    requires step < |vals|
    ensures var p := FirstMin(vals[..step]);
      FirstMin(vals[..step + 1]) ==
        if vals[step].Some? && (p.None? || vals[step].value < vals[p.value].value) then Some(step) else p
  {
    assert vals[..step + 1][..step] == vals[..step];
  }

  /** FindMaxError(start, delta, num_steps): argmin of the surrogate over the grid
      start + k delta, scanned upwards after normalizing the step; fatal unless the
      point found is positive. */
  method FindMaxError(start: real, delta: real, numSteps: int, err: real -> Option<real>) returns (r: Result<real>)
    ensures r == MaxErrorOutcome(start, delta, numSteps, err)
  {
    var s, d := start, delta;
    if d < 0.0 {
      s := s + ((numSteps - 1) as real) * d;
      d := -d;
    }
    assert (s, d) == Normalized(start, delta, numSteps);
    var omegaStar := Scan(err, s, d, if numSteps < 0 then 0 else numSteps);
    if omegaStar > 0.0 {
      r := Ok(omegaStar);
    } else {
      r := Err(NoMaxError);
    }
  }

  /** The surrogate |Σ q_s / (z_s − omega)|², the squared modulus of the denominator
      of the barycentric interpolation (squaring keeps the order of the moduli),
      summed over the first min(|q|, |z|) samples; None where omega hits a sample
      point and a term is infinite. Flipping the sign of every denominator, as the
      form Σ q_s / (omega − z_s) does, leaves the value unchanged. */
  function Surrogate(q: seq<Complex>, z: seq<real>, omega: real): (r: Option<real>)
    ensures r.None? <==> exists s :: 0 <= s < |z| && z[s] == omega
    ensures r.Some? ==> var d := Denominator(q, z, omega, if |q| < |z| then |q| else |z|);
      r.value == d.re * d.re + d.im * d.im && r.value >= 0.0
  {
    if exists s :: 0 <= s < |z| && z[s] == omega then None
    else
      var t := Terms(q, z, omega, if |q| < |z| then |q| else |z|);
      Some(t.re * t.re + t.im * t.im)
  }

  /** Σ_{s < n} q_s / (z_s − omega), as the source evaluates it. It is the negation
      of the barycentric denominator Σ_{s < n} q_s / (omega − z_s). */
  function Terms(q: seq<Complex>, z: seq<real>, omega: real, n: nat): (t: Complex)
    requires n <= |q| && n <= |z|
    requires forall s :: 0 <= s < |z| ==> z[s] != omega
    ensures var d := Denominator(q, z, omega, n); t == Complex(-d.re, -d.im)
  {
    if n == 0 then Zero
    else
      var x := q[n - 1];
      var w := z[n - 1] - omega;
      assert x.re / w == -(x.re / -w) && x.im / w == -(x.im / -w);
      Add(Terms(q, z, omega, n - 1), Complex(x.re / w, x.im / w))
  }

  /** Σ_{s < n} q_s / (omega − z_s), the denominator of the barycentric
      interpolation u(omega) = [Σ u_s q_s / (omega − z_s)] / [Σ q_s / (omega − z_s)]. */
  function Denominator(q: seq<Complex>, z: seq<real>, omega: real, n: nat): Complex
    requires n <= |q| && n <= |z|
    requires forall s :: 0 <= s < |z| ==> z[s] != omega
  {
    if n == 0 then Zero
    else Add(Denominator(q, z, omega, n - 1), Complex(q[n - 1].re / (omega - z[n - 1]), q[n - 1].im / (omega - z[n - 1])))
  }

  // ---- expansion of the reduced solution ----

  /** Σ_{j < n} c_j V_j, as a vector of length len. */
  function Expansion(c: seq<real>, V: seq<Vec>, n: nat, len: nat): (r: Vec)
    requires n <= |c| && n <= |V|
    ensures |r| == len
  {
    if n == 0 then Zeros(len) else Axpy(c[n - 1], V[n - 1], Expansion(c, V, n - 1, len))
  }

  /** Entry i of V_0 .. V_{n-1}. */
  function Across(V: seq<Vec>, n: nat, i: int): (r: Vec)
    requires n <= |V|
    ensures |r| == n
  {
    seq(n, j requires 0 <= j < n => At(V[j], i))
  }

  /** Entry i of the expansion is the inner product of the coefficients with the
      basis vectors' entries i. */
  lemma {:induction false} ExpansionEntry(c: seq<real>, V: seq<Vec>, n: nat, len: nat, i: nat)
    requires n <= |c| && n <= |V| && i < len
    ensures Expansion(c, V, n, len)[i] == Dot(c[..n], Across(V, n, i))
  {
    if n > 0 {
      ExpansionEntry(c, V, n - 1, len, i);
      assert c[..n][..n - 1] == c[..n - 1];
      DotCongruent(c[..n - 1], Across(V, n, i), Across(V, n - 1, i));
    }
  }

  /** One step of the pairwise loop adds two terms at once. */
  lemma PairStep(c: seq<real>, V: seq<Vec>, j: nat, len: nat)
    requires j + 2 <= |c| && j + 2 <= |V|
    ensures Axpbypcz(c[j], V[j], c[j + 1], V[j + 1], 1.0, Expansion(c, V, j, len)) == Expansion(c, V, j + 2, len)
  {
    assert Expansion(c, V, j + 2, len) == Axpy(c[j + 1], V[j + 1], Axpy(c[j], V[j], Expansion(c, V, j, len)));
  }

  function RealParts(c: seq<Complex>): (r: seq<real>)
    ensures |r| == |c| && forall j :: 0 <= j < |c| ==> r[j] == c[j].re
  {
    seq(|c|, j requires 0 <= j < |c| => c[j].re)
  }

  function ImagParts(c: seq<Complex>): (r: seq<real>)
    ensures |r| == |c| && forall j :: 0 <= j < |c| ==> r[j] == c[j].im
  {
    seq(|c|, j requires 0 <= j < |c| => c[j].im)
  }

  /** The expansion loop of SolvePROM: u = 0, then pairs of basis vectors are added
      with AXPBYPCZ and an odd last one with AXPY, for both parts of u. */
  method Expand(c: seq<Complex>, V: seq<Vec>, n: nat, u: ComplexVector)
    requires u.Valid() && n <= |c| && n <= |V|
    modifies u.xr, u.xi
    ensures u.Real() == Expansion(RealParts(c), V, n, u.Size())
    ensures u.Imag() == Expansion(ImagParts(c), V, n, u.Size())
  {
    u.Fill(Zero);
    var cr, ci := RealParts(c), ImagParts(c);
    var j := 0;
    while j < n
      invariant j <= n || j == n + 1
      invariant u.Valid()
      invariant u.Real() == Expansion(cr, V, if j <= n then j else n, u.Size())
      invariant u.Imag() == Expansion(ci, V, if j <= n then j else n, u.Size())
    {
      if j + 1 < n {
        PairStep(cr, V, j, u.Size());
        PairStep(ci, V, j, u.Size());
        AxpbypczReal(c[j].re, V[j], c[j + 1].re, V[j + 1], 1.0, u.xr);
        AxpbypczReal(c[j].im, V[j], c[j + 1].im, V[j + 1], 1.0, u.xi);
      } else {
        AxpyReal(c[j].re, V[j], u.xr);
        AxpyReal(c[j].im, V[j], u.xi);
      }
      j := j + 2;
    }
  }
}
