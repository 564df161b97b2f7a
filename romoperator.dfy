/** The RomOperator of palace/models/romoperator.cpp: a Galerkin reduced-order
    model of the frequency-domain system K + iω C − ω² M + A2(ω), built one
    high-dimensional solution at a time. It keeps a real orthonormal basis V (two
    vectors per complex solution), the projected matrices Kr, Cr, Mr and vector
    RHS1r grown incrementally, and the QR factor R of the snapshot matrix whose
    smallest singular vector q drives the error estimate.

    The SpaceOperator, the Gram-Schmidt routines, Eigen's SVD and LU solve are
    collaborators given as functions. */
module RomOperators {
  import opened Scalars
  import opened RealVectors
  import opened ComplexVectors
  import opened RomKernels
  import opened Dense

  datatype OrthogType = MGS | CGS | CGS2

  /** What GetExcitationVector2(omega, r) reports: whether there is an excitation,
      and the vector it leaves in r. */
  datatype Excitation = Excitation(present: bool, vector: Block)

  /** The SpaceOperator as the reduced-order model uses it. */
  datatype SpaceOperator = SpaceOperator(
    stiffness: Option<ComplexOperator>,              // GetStiffnessMatrix
    damping: Option<ComplexOperator>,                // GetDampingMatrix
    mass: Option<ComplexOperator>,                   // GetMassMatrix
    excitation1: Option<Block>,                      // GetExcitationVector1
    extraMatrix: real -> Option<ComplexOperator>,    // GetExtraSystemMatrix(omega), None for nullptr
    excitation2: real -> Excitation)                 // GetExcitationVector2(omega, r)

  /** What orthogonalizing and normalizing a complex column against the leading
      columns reports: the coefficients against those columns, the norm before
      normalizing, and the normalized column. */
  datatype Orthogonalized = Orthogonalized(coeffs: seq<Complex>, norm: real, column: Block)

  /** OrthogonalizeColumn followed by the division by the Norml2 of the result, for
      the real basis (whose coefficients are discarded) and for the complex
      snapshots, given the orthogonalization type, the leading columns and the new
      column. The switch on the type and the normalization, including a zero norm,
      are inside the collaborator. */
  datatype GramSchmidt = GramSchmidt(
    basis: (OrthogType, seq<Vec>, Vec) -> Vec,
    snapshots: SnapshotOrthogonalizer)

  /** The snapshot orthogonalization, given the orthogonalization type, the leading
      columns and the new column. */
  type SnapshotOrthogonalizer = (OrthogType, seq<Block>, Block) -> Orthogonalized

  /** JacobiSVD: the singular values and the right singular vectors. */
  type SvdSolver = seq<seq<Complex>> -> Svd

  /** The partial-pivoting LU solve of a dense system. */
  type LuSolver = (seq<seq<Complex>>, seq<Complex>) -> seq<Complex>

  /** Eigen's JacobiSVD and partial-pivoting LU solve. */
  datatype DenseSolvers = DenseSolvers(svd: SvdSolver, lu: LuSolver)

  /** What the collaborators guarantee about the shape of their results: the snapshot
      orthogonalization reports one coefficient per leading column, the SVD of an
      S x S matrix has S singular values and an S x S V, and the LU solve returns a
      vector of the right-hand side's size. */
  ghost predicate CoefficientPerColumn(snapshots: SnapshotOrthogonalizer) {
    forall t, Qs, w :: |snapshots(t, Qs, w).coeffs| == |Qs|
  }

  ghost predicate SquareSvd(svd: SvdSolver) {
    forall Rm :: SvdOf(svd(Rm), Rm)
  }

  /** d has the shape of the SVD of the square matrix Rm. */
  predicate SvdOf(d: Svd, Rm: seq<seq<Complex>>) {
    SvdShaped(d, |Rm|)
  }

  ghost predicate SizedSolve(lu: LuSolver) {
    forall Am, b :: |lu(Am, b)| == |b|
  }

  /** has_real (x the real part) and has_imag (x the imaginary part): ‖x‖ exceeds
      ORTHOG_TOL times the norm of the whole vector. Both sides are nonnegative, so
      the test is written on squares. */
  predicate Present(x: Vec, y: Vec) {
    NormSq(x) > OrthogTol * OrthogTol * (NormSq(x) + NormSq(y))
  }

  /** has_real + has_imag: the number of basis vectors a solution adds. */
  function Parts(u: Block): (p: nat)
    ensures p <= 2
  {
    (if Present(u.re, u.im) then 1 else 0) + (if Present(u.im, u.re) then 1 else 0)
  }

  /** A solution adds no basis vector exactly when it is zero, and otherwise at
      least one. */
  lemma PartsOfZero(u: Block)
    ensures Parts(u) == 0 <==> NormSq(u.re) + NormSq(u.im) == 0.0
  {
    DotSelfNonNegative(u.re);
    DotSelfNonNegative(u.im);
  }

  function Repeat(n: nat, x: nat): (r: seq<nat>)
    ensures |r| == n && forall k :: 0 <= k < n ==> r[k] == x
  {
    seq(n, _ => x)
  }

  /** The fatal checks of UpdatePROM in source order: basis storage, the projections
      (no new basis vector, or an operator with no part), snapshot storage. */
  function UpdateStatus(K: ComplexOperator, C: Option<ComplexOperator>, M: ComplexOperator,
                        dimV: nat, capV: nat, dimQ: nat, capQ: nat, parts: nat): Status
  {
    if dimV + parts > capV then Failed(BasisStorageFull)
    else if parts == 0 then Failed(InvalidProjectionDims)
    else if !K.NonZero() || (C.Some? && !C.value.NonZero()) || !M.NonZero() then Failed(ZeroOperator)
    else if dimQ + 1 > capQ then Failed(BasisStorageFull)
    else Done
  }

  /** The fatal checks of SolvePROM: a reported extra matrix that is null, and the
      projections onto an empty basis or of a zero operator. */
  function SolveStatus(hasA2: bool, A2: Option<ComplexOperator>, hasRHS2: bool, dimV: nat): Status {
    if hasA2 && A2.None? then Failed(NullExtraMatrix)
    else if hasA2 && dimV == 0 then Failed(InvalidProjectionDims)
    else if hasA2 && !A2.value.NonZero() then Failed(ZeroOperator)
    else if hasRHS2 && dimV == 0 then Failed(InvalidProjectionDims)
    else Done
  }

  /** Entry of the reduced system matrix (projected A2 or 0) + Kr + iω Cr − ω² Mr,
      the Cr term only when Cr is not empty. */
  function SystemEntry(base: Complex, k: Complex, c: Option<Complex>, m: Complex, omega: real): Complex {
    var a := Add(base, k);
    var b := if c.Some? then Add(a, Mul(ITimes(omega), c.value)) else a;
    Add(b, Mul(OfReal(-omega * omega), m))
  }

  /** Entry of the reduced right-hand side (projected RHS2 or 0) + iω RHS1r, the
      RHS1r term only when there is a RHS1. */
  function RhsEntry(base: Complex, rhs1: Option<Complex>, omega: real): Complex {
    if rhs1.Some? then Add(base, Mul(ITimes(omega), rhs1.value)) else base
  }

  predicate UpperTriangular(R: seq<seq<Complex>>) {
    forall i, j :: 0 <= j < i < |R| && j < |R[i]| ==> R[i][j] == Zero
  }

  /** R.conservativeResizeLike(Zero(n + 1, n + 1)) for the n x n factor R, then
      column n filled by the orthogonalization: the coefficients above the diagonal
      and the norm on it. */
  function Bordered(R: seq<seq<Complex>>, coeffs: seq<Complex>, norm: real): (r: seq<seq<Complex>>)
    requires SquareRows(R, |R|) && |coeffs| == |R|
    ensures SquareRows(r, |R| + 1)
    ensures forall i, j :: 0 <= i < |R| && 0 <= j < |R| ==> r[i][j] == R[i][j]
    ensures forall i :: 0 <= i < |R| ==> r[i][|R|] == coeffs[i] && r[|R|][i] == Zero
    ensures r[|R|][|R|] == OfReal(norm)
  {
    var n := |R|;
    seq(n + 1, i requires 0 <= i <= n =>
      seq(n + 1, j requires 0 <= j <= n =>
        if i < n && j < n then R[i][j]
        else if i < n then coeffs[i]
        else if j == n then OfReal(norm)
        else Zero))
  }

  /** Bordering keeps the factor upper triangular. */
  lemma BorderedUpper(R: seq<seq<Complex>>, coeffs: seq<Complex>, norm: real)
    requires SquareRows(R, |R|) && |coeffs| == |R| && UpperTriangular(R)
    ensures UpperTriangular(Bordered(R, coeffs, norm))
  {
  }

  /** Update numbers below dimQ, in the order the basis vectors were added. */
  predicate Numbered(born: seq<nat>, dimQ: nat) {
    (forall k :: 0 <= k < |born| ==> born[k] < dimQ) &&
    (forall k, l :: 0 <= k <= l < |born| ==> born[k] <= born[l])
  }

  /** The vectors of update dimQ extend a numbering of the earlier ones, and form
      the last batch. */
  lemma NumberedGrows(born: seq<nat>, dimQ: nat, p: nat)
    requires Numbered(born, dimQ)
    ensures Numbered(born + Repeat(p, dimQ), dimQ + 1)
    ensures Batches(born + Repeat(p, dimQ), |born|)
  {
  }

  /** Kr, Cr (empty without a damping matrix), Mr and RHS1r (empty without a
      RHS1) are the projections of K, C, M and RHS1 onto the first n basis vectors. */
  ghost predicate ReducedOn(K: ComplexOperator, C: Option<ComplexOperator>, M: ComplexOperator, RHS1: Block,
                            V: seq<Vec>, born: seq<nat>, n: nat,
                            Kr: seq<seq<Complex>>, Cr: seq<seq<Complex>>, Mr: seq<seq<Complex>>, RHS1r: seq<Complex>)
  {
    n <= |V| && n <= |born| &&
    IsGalerkin(Kr, K, V, born, n) &&
    (if C.Some? then IsGalerkin(Cr, C.value, V, born, n) else Cr == []) &&
    IsGalerkin(Mr, M, V, born, n) &&
    (if |RHS1.re| > 0 then |RHS1r| == n && forall i :: 0 <= i < n ==> RHS1r[i] == VecEntry(V[i], RHS1)
     else RHS1r == [])
  }

  /** The projections onto the first n vectors depend on those vectors only. */
  lemma ReducedFrame(K: ComplexOperator, C: Option<ComplexOperator>, M: ComplexOperator, RHS1: Block,
                     V: seq<Vec>, born: seq<nat>, V1: seq<Vec>, born1: seq<nat>, n: nat,
                     Kr: seq<seq<Complex>>, Cr: seq<seq<Complex>>, Mr: seq<seq<Complex>>, RHS1r: seq<Complex>)
    requires n <= |V1| && n <= |born1| && ReducedOn(K, C, M, RHS1, V, born, n, Kr, Cr, Mr, RHS1r)
    requires V[..n] == V1[..n] && born[..n] == born1[..n]
    ensures ReducedOn(K, C, M, RHS1, V1, born1, n, Kr, Cr, Mr, RHS1r)
  {
    GalerkinFrame(Kr, K, V, V1, born, born1, n);
    if C.Some? {
      GalerkinFrame(Cr, C.value, V, V1, born, born1, n);
    }
    GalerkinFrame(Mr, M, V, V1, born, born1, n);
    if |RHS1.re| > 0 {
      forall i | 0 <= i < n
        ensures V1[i] == V[i]
      {
        assert V1[i] == V1[..n][i] && V[i] == V[..n][i];
      }
    }
  }

  /** R is the n x n upper triangular factor of the first n snapshots, q has one
      coefficient per snapshot, and z and S both list the sampled frequencies. */
  predicate SnapshotsOn(R: seq<seq<Complex>>, z: seq<real>, S: seq<real>, q: seq<Complex>, n: nat) {
    SquareRows(R, n) && UpperTriangular(R) && |z| == n && z == S && |q| == n
  }

  // ---- UpdatePROM, phase by phase ----

  /** The basis vectors one solution adds to the basis W: its real part, when not
      negligible, orthogonalized against W and normalized, then its imaginary part,
      when not negligible, orthogonalized against W and the vector just added. */
  function NewVectors(gs: GramSchmidt, orthogType: OrthogType, W: seq<Vec>, u: Block): (r: seq<Vec>)
    ensures |r| == Parts(u)
    ensures Present(u.re, u.im) ==> r[0] == gs.basis(orthogType, W, u.re)
    ensures Present(u.im, u.re) ==> r[|r| - 1] == gs.basis(orthogType, W + r[..|r| - 1], u.im)
  {
    var first := if Present(u.re, u.im) then [gs.basis(orthogType, W, u.re)] else [];
    first + (if Present(u.im, u.re) then [gs.basis(orthogType, W + first, u.im)] else [])
  }

  /** The first part of UpdatePROM on the basis V of n vectors: when there is room,
      the real and then the imaginary part of the solution, when not negligible,
      is orthogonalized against the vectors so far, normalized, and appended; every
      new vector is numbered with the update dimQ. */
  method ExtendBasis(gs: GramSchmidt, orthogType: OrthogType, V: seq<Vec>, n: nat, ghost born: seq<nat>, dimQ: nat, u: Block)
    returns (status: Status, V1: seq<Vec>, n1: nat, ghost born1: seq<nat>)
    requires n <= |V|
    ensures status == if n + Parts(u) <= |V| then Done else Failed(BasisStorageFull)
    ensures status.Done? ==> n1 == n + Parts(u) && born1 == born + Repeat(Parts(u), dimQ)
    ensures status.Done? ==> |V1| == |V| && V1[..n] == V[..n] && forall k :: n1 <= k < |V| ==> V1[k] == V[k]
    ensures status.Done? && Present(u.re, u.im) ==> V1[n] == gs.basis(orthogType, V[..n], u.re)
    ensures status.Done? && Present(u.im, u.re) ==> V1[n1 - 1] == gs.basis(orthogType, V1[..n1 - 1], u.im)
    ensures status.Done? ==> V1[n..n1] == NewVectors(gs, orthogType, V[..n], u)
  {
    V1, n1, born1 := V, n, born;
    if n + Parts(u) > |V| {
      return Failed(BasisStorageFull), V1, n1, born1;
    }
    ghost var first: seq<Vec> := [];
    if Present(u.re, u.im) {
      V1 := V1[n1 := gs.basis(orthogType, V1[..n1], u.re)];
      n1 := n1 + 1;
      born1 := born1 + [dimQ];
      first := [V1[n]];
    }
    assert V1[..n1] == V[..n] + first;
    if Present(u.im, u.re) {
      V1 := V1[n1 := gs.basis(orthogType, V1[..n1], u.im)];
      n1 := n1 + 1;
      born1 := born1 + [dimQ];
    }
    assert V1[n..n1] == NewVectors(gs, orthogType, V[..n], u);
    assert born1 == born + Repeat(Parts(u), dimQ);
    status := Done;
  }

  /** conservativeResize of a kept matrix from n0 to n = |born| followed by
      ProjectMatInternal: the result holds the projection onto all n vectors. */
  method ProjectGrown(V: seq<Vec>, A: ComplexOperator, a: seq<seq<Complex>>, ghost born: seq<nat>, n0: nat, n: nat)
    returns (status: Status, m: seq<seq<Complex>>)
    requires n0 <= n == |born| <= |V| && Batches(born, n0) && IsGalerkin(a, A, V, born, n0)
    ensures status == if n0 >= n then Failed(InvalidProjectionDims) else if !A.NonZero() then Failed(ZeroOperator) else Done
    ensures status.Done? ==> IsGalerkin(m, A, V, born, n)
  {
    var arr := ResizedMatrix(a, n);
    status := ProjectMatInternal(V, A, arr, n0);
    if status.Done? {
      IncrementalProjection(arr, A, V, born, n0);
    }
    m := Rows(arr);
  }

  /** conservativeResize of RHS1r from n0 to n entries followed by
      ProjectVecInternal. */
  method ProjectGrownVector(V: seq<Vec>, b: Block, a: seq<Complex>, n0: nat, n: nat) returns (m: seq<Complex>)
    requires |a| == n0 < n <= |V|
    requires forall i :: 0 <= i < n0 ==> a[i] == VecEntry(V[i], b)
    ensures |m| == n && forall i :: 0 <= i < n ==> m[i] == VecEntry(V[i], b)
  {
    var arr := ResizedVector(a, n);
    var status := ProjectVecInternal(V, b, arr, n0);
    assert status.Done?;
    m := arr[..];
  }

  /** The second part of UpdatePROM: Kr, Cr (when there is a damping matrix), Mr
      and RHS1r (when there is a RHS1), kept for the first n0 vectors, are grown
      and projected for the new ones. */
  method ProjectOperators(K: ComplexOperator, C: Option<ComplexOperator>, M: ComplexOperator, RHS1: Block,
                          V: seq<Vec>, ghost born: seq<nat>, n0: nat, n: nat,
                          Kr: seq<seq<Complex>>, Cr: seq<seq<Complex>>, Mr: seq<seq<Complex>>, RHS1r: seq<Complex>)
    returns (status: Status, Kr1: seq<seq<Complex>>, Cr1: seq<seq<Complex>>, Mr1: seq<seq<Complex>>, RHS1r1: seq<Complex>)
    requires n0 <= n == |born| <= |V| && Batches(born, n0)
    requires ReducedOn(K, C, M, RHS1, V, born, n0, Kr, Cr, Mr, RHS1r)
    ensures status == if n0 >= n then Failed(InvalidProjectionDims)
                      else if !K.NonZero() || (C.Some? && !C.value.NonZero()) || !M.NonZero() then Failed(ZeroOperator)
                      else Done
    ensures status.Done? ==> ReducedOn(K, C, M, RHS1, V, born, n, Kr1, Cr1, Mr1, RHS1r1)
  {
    Cr1, RHS1r1 := Cr, RHS1r;
    status, Kr1 := ProjectGrown(V, K, Kr, born, n0, n);
    if status.Failed? {
      return status, Kr1, Cr1, Mr, RHS1r1;
    }
    if C.Some? {
      status, Cr1 := ProjectGrown(V, C.value, Cr, born, n0, n);
      if status.Failed? {
        return status, Kr1, Cr1, Mr, RHS1r1;
      }
    }
    status, Mr1 := ProjectGrown(V, M, Mr, born, n0, n);
    if status.Failed? {
      return;
    }
    if |RHS1.re| > 0 {
      RHS1r1 := ProjectGrownVector(V, RHS1, RHS1r, n0, n);
    }
  }

  /** The last part of UpdatePROM on the first n snapshots: the new column is
      orthogonalized against them and stored as snapshot n, R is bordered by its
      coefficients and norm, and ComputeMRI picks q for the grown R. */
  method AddSnapshot(snapshots: SnapshotOrthogonalizer, svd: SvdSolver, orthogType: OrthogType,
                     Q: seq<Block>, n: nat, R: seq<seq<Complex>>, u: Block)
    returns (Q1: seq<Block>, R1: seq<seq<Complex>>, q1: seq<Complex>)
    requires n < |Q| && SquareRows(R, n) && UpperTriangular(R)
    requires CoefficientPerColumn(snapshots) && SquareSvd(svd)
    ensures var col := snapshots(orthogType, Q[..n], u);
      Q1 == Q[n := col.column] && R1 == Bordered(R, col.coeffs, col.norm)
    ensures SquareRows(R1, n + 1) && UpperTriangular(R1) && |q1| == n + 1
    ensures exists m :: MriIndex(svd(R1).sigma, m) && q1 == Column(svd(R1).v, m)
  {
    var col := snapshots(orthogType, Q[..n], u);
    BorderedUpper(R, col.coeffs, col.norm);
    R1 := Bordered(R, col.coeffs, col.norm);
    Q1 := Q[n := col.column];
    var index: nat;
    q1, index := ComputeMRI(R1, svd);
  }

  /** UpdatePROM on values: the basis V of n vectors, the projections kept for them,
      the snapshot storage Q of m snapshots and its factor R, extended with the solution
      u. The result reports the fatal checks in source order and, when they pass,
      the grown basis, projections and snapshots. */
  method UpdateModel(K: ComplexOperator, C: Option<ComplexOperator>, M: ComplexOperator, RHS1: Block,
                     gs: GramSchmidt, svd: SvdSolver, orthogType: OrthogType,
                     V: seq<Vec>, n: nat, ghost born: seq<nat>,
                     Kr: seq<seq<Complex>>, Cr: seq<seq<Complex>>, Mr: seq<seq<Complex>>, RHS1r: seq<Complex>,
                     Q: seq<Block>, m: nat, R: seq<seq<Complex>>, u: Block)
    returns (status: Status, V1: seq<Vec>, n1: nat, ghost born1: seq<nat>,
             Kr1: seq<seq<Complex>>, Cr1: seq<seq<Complex>>, Mr1: seq<seq<Complex>>, RHS1r1: seq<Complex>,
             Q1: seq<Block>, R1: seq<seq<Complex>>, q1: seq<Complex>)
    requires CoefficientPerColumn(gs.snapshots) && SquareSvd(svd)
    requires n <= |V| && m <= |Q| && |born| == n && Numbered(born, m)
    requires ReducedOn(K, C, M, RHS1, V, born, n, Kr, Cr, Mr, RHS1r) && SquareRows(R, m) && UpperTriangular(R)
    ensures status == UpdateStatus(K, C, M, n, |V|, m, |Q|, Parts(u))
    ensures status.Done? ==> n1 == n + Parts(u) && |V1| == |V| && |born1| == n1 && Numbered(born1, m + 1)
    ensures status.Done? ==> forall k :: 0 <= k < n ==> V1[k] == V[k]
    ensures status.Done? ==> V1[n..n1] == NewVectors(gs, orthogType, V[..n], u)
    ensures status.Done? ==> ReducedOn(K, C, M, RHS1, V1, born1, n1, Kr1, Cr1, Mr1, RHS1r1)
    ensures status.Done? ==> var col := gs.snapshots(orthogType, Q[..m], u);
      Q1 == Q[m := col.column] && R1 == Bordered(R, col.coeffs, col.norm)
    ensures status.Done? ==> SquareRows(R1, m + 1) && UpperTriangular(R1) && |q1| == m + 1
    ensures status.Done? ==> exists j :: MriIndex(svd(R1).sigma, j) && q1 == Column(svd(R1).v, j)
  {
    NumberedGrows(born, m, Parts(u));
    Kr1, Cr1, Mr1, RHS1r1, Q1, R1, q1 := Kr, Cr, Mr, RHS1r, Q, R, [];
    status, V1, n1, born1 := ExtendBasis(gs, orthogType, V, n, born, m, u);
    if status.Failed? {
      return;
    }
    assert V[..n] == V1[..n] && born[..n] == born1[..n];
    ReducedFrame(K, C, M, RHS1, V, born, V1, born1, n, Kr, Cr, Mr, RHS1r);
    status, Kr1, Cr1, Mr1, RHS1r1 := ProjectOperators(K, C, M, RHS1, V1, born1, n, n1, Kr, Cr, Mr, RHS1r);
    if status.Failed? {
      return;
    }
    if m + 1 > |Q| {
      return Failed(BasisStorageFull), V1, n1, born1, Kr1, Cr1, Mr1, RHS1r1, Q1, R1, q1;
    }
    Q1, R1, q1 := AddSnapshot(gs.snapshots, svd, orthogType, Q, m, R, u);
    forall k | 0 <= k < n
      ensures V1[k] == V[k]
    {
      assert V1[k] == V1[..n][k];
    }
  }

  // ---- SolvePROM ----

  /** Vᵀ RHS2 on the first n vectors when the second excitation is present, else 0. */
  function ProjectedExcitation(V: seq<Vec>, n: nat, present: bool, b: Block): (r: seq<Complex>)
    requires n <= |V|
    ensures |r| == n
  {
    seq(n, i requires 0 <= i < n => if present then VecEntry(V[i], b) else Zero)
  }

  /** Ar(ω) = (Vᵀ A2 V or 0) + Kr + iω Cr − ω² Mr, entry by entry, the Cr term only
      when Cr is not empty. */
  function SystemMatrix(base: seq<seq<Complex>>, Kr: seq<seq<Complex>>, Cr: seq<seq<Complex>>, Mr: seq<seq<Complex>>,
                        omega: real, n: nat): (a: seq<seq<Complex>>)
    requires SquareRows(base, n) && SquareRows(Kr, n) && SquareRows(Mr, n) && (|Cr| > 0 ==> SquareRows(Cr, n))
    ensures SquareRows(a, n)
  {
    seq(n, i requires 0 <= i < n =>
      seq(n, j requires 0 <= j < n =>
        SystemEntry(base[i][j], Kr[i][j], if |Cr| > 0 then Some(Cr[i][j]) else None, Mr[i][j], omega)))
  }

  /** RHSr(ω) = (Vᵀ RHS2 or 0) + iω RHS1r, entry by entry, the RHS1r term only when
      there is a RHS1. */
  function SystemRhs(base: seq<Complex>, RHS1r: seq<Complex>, hasRHS1: bool, omega: real): (b: seq<Complex>)
    requires hasRHS1 ==> |RHS1r| == |base|
    ensures |b| == |base|
  {
    seq(|base|, i requires 0 <= i < |base| => RhsEntry(base[i], if hasRHS1 then Some(RHS1r[i]) else None, omega))
  }

  /** vi · A2 vj, or 0 without an extra matrix. */
  function ExtraEntry(A2: Option<ComplexOperator>, vi: Vec, vj: Vec): Complex {
    if A2.Some? then Entry(A2.value, vi, vj) else Zero
  }

  /** An entry of the projection of the full system: (vi · A2 vj or 0) + vi · K vj +
      iω vi · C vj − ω² vi · M vj. */
  function ProjectedSystemEntry(A2: Option<ComplexOperator>, K: ComplexOperator, C: Option<ComplexOperator>,
                                M: ComplexOperator, vi: Vec, vj: Vec, omega: real): Complex
  {
    SystemEntry(ExtraEntry(A2, vi, vj), Entry(K, vi, vj),
                if C.Some? then Some(Entry(C.value, vi, vj)) else None, Entry(M, vi, vj), omega)
  }

  /** An entry of the reduced system matrix as assembled from the kept projections:
      (vi · A2 vj or 0) plus the kept entries of Kr, iω Cr and −ω² Mr, which below
      the diagonal across two updates hold the mirrored values. */
  function KeptSystemEntry(A2: Option<ComplexOperator>, K: ComplexOperator, C: Option<ComplexOperator>,
                           M: ComplexOperator, V: seq<Vec>, born: seq<nat>, i: nat, j: nat, omega: real): Complex
    requires i < |V| && j < |V| && i < |born| && j < |born|
  {
    SystemEntry(ExtraEntry(A2, V[i], V[j]), Galerkin(K, V, born, i, j),
                if C.Some? then Some(Galerkin(C.value, V, born, i, j)) else None, Galerkin(M, V, born, i, j), omega)
  }

  /** Assembled from the kept projections, the reduced system matrix agrees with
      the projection of the full system on and above the diagonal. */
  lemma SystemUpper(K: ComplexOperator, C: Option<ComplexOperator>, M: ComplexOperator, RHS1: Block,
                    V: seq<Vec>, born: seq<nat>, n: nat,
                    Kr: seq<seq<Complex>>, Cr: seq<seq<Complex>>, Mr: seq<seq<Complex>>, RHS1r: seq<Complex>,
                    A2: Option<ComplexOperator>, base: seq<seq<Complex>>, omega: real)
    requires ReducedOn(K, C, M, RHS1, V, born, n, Kr, Cr, Mr, RHS1r) && SquareRows(base, n)
    requires forall k, l :: 0 <= k <= l < |born| ==> born[k] <= born[l]
    requires forall i, j :: 0 <= i < n && 0 <= j < n ==> base[i][j] == ExtraEntry(A2, V[i], V[j])
    ensures forall i, j :: 0 <= i <= j < n ==>
      SystemMatrix(base, Kr, Cr, Mr, omega, n)[i][j] == ProjectedSystemEntry(A2, K, C, M, V[i], V[j], omega)
  {
    forall i, j | 0 <= i <= j < n
      ensures SystemMatrix(base, Kr, Cr, Mr, omega, n)[i][j] == ProjectedSystemEntry(A2, K, C, M, V[i], V[j], omega)
    {
      GalerkinUpper(K, V, born, i, j);
      GalerkinUpper(M, V, born, i, j);
      if C.Some? {
        GalerkinUpper(C.value, V, born, i, j);
      }
    }
  }

  /** The first part of SolvePROM on the first n basis vectors: Vᵀ A2 V when has_A2
      holds (a null extra matrix, a projection onto an empty basis and a zero
      operator are fatal), else 0. */
  method ProjectExtra(V: seq<Vec>, n: nat, hasA2: bool, A2: Option<ComplexOperator>)
    returns (status: Status, base: seq<seq<Complex>>)
    requires n <= |V|
    ensures status == (if !hasA2 then Done
                       else if A2.None? then Failed(NullExtraMatrix)
                       else if n == 0 then Failed(InvalidProjectionDims)
                       else if !A2.value.NonZero() then Failed(ZeroOperator)
                       else Done)
    ensures status.Done? ==> SquareRows(base, n) && forall i, j :: 0 <= i < n && 0 <= j < n ==>
      base[i][j] == ExtraEntry(if hasA2 then A2 else None, V[i], V[j])
  {
    base := ZeroMatrix(n);
    if !hasA2 {
      return Done, base;
    }
    if A2.None? {
      return Failed(NullExtraMatrix), base;
    }
    var arr := ResizedMatrix(base, n);
    status := ProjectMatInternal(V[..n], A2.value, arr, 0);
    base := Rows(arr);
  }

  /** The second part of SolvePROM: Vᵀ RHS2 when the second excitation is present
      (a fatal projection onto an empty basis), else 0. */
  method ProjectExcitation(V: seq<Vec>, n: nat, hasRHS2: bool, rhs2: Block) returns (status: Status, base: seq<Complex>)
    requires n <= |V|
    ensures status == if hasRHS2 && n == 0 then Failed(InvalidProjectionDims) else Done
    ensures status.Done? ==> base == ProjectedExcitation(V, n, hasRHS2, rhs2)
  {
    base := ZeroVector(n);
    if hasRHS2 {
      var arr := ResizedVector(base, n);
      status := ProjectVecInternal(V[..n], rhs2, arr, 0);
      base := arr[..];
    } else {
      status := Done;
    }
    if status.Done? {
      ghost var expected := ProjectedExcitation(V, n, hasRHS2, rhs2);
      assert forall i :: 0 <= i < n ==> base[i] == expected[i];
    }
  }

  /** The reduced system of SolvePROM at omega: Ar(ω) from the projected extra
      matrix and the kept projections, and RHSr(ω) from the projected second
      excitation and RHS1r. The fatal checks come in source order. */
  method AssembleSystem(K: ComplexOperator, C: Option<ComplexOperator>, M: ComplexOperator, RHS1: Block,
                        V: seq<Vec>, ghost born: seq<nat>, n: nat,
                        Kr: seq<seq<Complex>>, Cr: seq<seq<Complex>>, Mr: seq<seq<Complex>>, RHS1r: seq<Complex>,
                        hasA2: bool, A2: Option<ComplexOperator>, hasRHS2: bool, rhs2: Block, omega: real)
    returns (status: Status, Ar: seq<seq<Complex>>, b: seq<Complex>)
    requires ReducedOn(K, C, M, RHS1, V, born, n, Kr, Cr, Mr, RHS1r)
    requires forall k, l :: 0 <= k <= l < |born| ==> born[k] <= born[l]
    ensures status == SolveStatus(hasA2, A2, hasRHS2, n)
    ensures status.Done? ==> SquareRows(Ar, n) && forall i, j :: 0 <= i <= j < n ==>
      Ar[i][j] == ProjectedSystemEntry(if hasA2 then A2 else None, K, C, M, V[i], V[j], omega)
    ensures status.Done? ==> forall i, j :: 0 <= i < n && 0 <= j < n ==>
      Ar[i][j] == KeptSystemEntry(if hasA2 then A2 else None, K, C, M, V, born, i, j, omega)
    ensures status.Done? ==> b == SystemRhs(ProjectedExcitation(V, n, hasRHS2, rhs2), RHS1r, |RHS1.re| > 0, omega)
  {
    var baseA: seq<seq<Complex>>;
    var baseB: seq<Complex>;
    Ar, b := [], [];
    status, baseA := ProjectExtra(V, n, hasA2, A2);
    if status.Failed? {
      return;
    }
    status, baseB := ProjectExcitation(V, n, hasRHS2, rhs2);
    if status.Failed? {
      return;
    }
    SystemUpper(K, C, M, RHS1, V, born, n, Kr, Cr, Mr, RHS1r, if hasA2 then A2 else None, baseA, omega);
    Ar := SystemMatrix(baseA, Kr, Cr, Mr, omega, n);
    b := SystemRhs(baseB, RHS1r, |RHS1.re| > 0, omega);
  }

  /** The operator the error estimate minimizes over the grid: the surrogate for
      the kept coefficients q and sample points z. */
  function SurrogateOf(q: seq<Complex>, z: seq<real>): real -> Option<real> {
    omega => Surrogate(q, z, omega)
  }

  class RomOperator {
    const K: ComplexOperator
    const C: Option<ComplexOperator>
    const M: ComplexOperator
    const RHS1: Block
    const spaceop: SpaceOperator
    const orthogType: OrthogType
    const gs: GramSchmidt
    const solvers: DenseSolvers
    const maxSize: nat
    /** Basis storage (2 max_size columns) and snapshot storage (max_size columns). */
    var V: seq<Vec>
    var Q: seq<Block>
    var dimV: nat
    var dimQ: nat
    var hasA2: bool
    var hasRHS2: bool
    var Kr: seq<seq<Complex>>
    var Cr: seq<seq<Complex>>
    var Mr: seq<seq<Complex>>
    var Ar: seq<seq<Complex>>
    var RHS1r: seq<Complex>
    var RHSr: seq<Complex>
    var R: seq<seq<Complex>>
    var z: seq<real>
    var S: seq<real>
    var q: seq<Complex>
    /** For each basis vector, the number of the update that added it. */
    ghost var born: seq<nat>

    /** Storage sizes and counters: each update adds at most two basis vectors. */
    ghost predicate Storage()
      reads this`V, this`Q, this`dimV, this`dimQ, this`born
    {
      maxSize > 0 && |V| == 2 * maxSize && |Q| == maxSize &&
      dimV <= |V| && dimQ <= |Q| && dimV <= 2 * dimQ &&
      |born| == dimV && Numbered(born, dimQ)
    }

    /** The shape guarantees of the orthogonalization and of the dense solvers. */
    ghost predicate Collaborators() {
      CoefficientPerColumn(gs.snapshots) && SquareSvd(solvers.svd) && SizedSolve(solvers.lu)
    }

    ghost predicate Valid()
      reads this`V, this`Q, this`dimV, this`dimQ, this`born, this`Kr, this`Cr, this`Mr, this`Ar
      reads this`RHS1r, this`RHSr, this`R, this`z, this`S, this`q
    {
      Collaborators() && Storage() && ReducedOn(K, C, M, RHS1, V, born, dimV, Kr, Cr, Mr, RHS1r) &&
      SnapshotsOn(R, z, S, q, dimQ) && SquareRows(Ar, dimV) && |RHSr| == dimV
    }

    /** RomOperator(iodata, spaceop, max_size) once its fatal checks have passed. */
    constructor (spaceop: SpaceOperator, maxSize: nat, orthogType: OrthogType, gs: GramSchmidt, solvers: DenseSolvers)
      requires spaceop.stiffness.Some? && spaceop.mass.Some? && maxSize > 0
      requires CoefficientPerColumn(gs.snapshots) && SquareSvd(solvers.svd) && SizedSolve(solvers.lu)
      ensures Valid() && dimV == 0 && dimQ == 0 && hasA2 && hasRHS2 && z == [] && S == []
      ensures K == spaceop.stiffness.value && C == spaceop.damping && M == spaceop.mass.value
      ensures RHS1 == if spaceop.excitation1.Some? then spaceop.excitation1.value else Block([], [])
      ensures this.spaceop == spaceop && this.maxSize == maxSize && this.orthogType == orthogType
      ensures this.gs == gs && this.solvers == solvers
    {
      K := spaceop.stiffness.value;
      C := spaceop.damping;
      M := spaceop.mass.value;
      RHS1 := if spaceop.excitation1.Some? then spaceop.excitation1.value else Block([], []);
      this.spaceop := spaceop;
      this.maxSize := maxSize;
      this.orthogType := orthogType;
      this.gs := gs;
      this.solvers := solvers;
      V := seq(2 * maxSize, _ => []);
      Q := seq(maxSize, _ => Block([], []));
      dimV, dimQ := 0, 0;
      hasA2, hasRHS2 := true, true;
      Kr, Cr, Mr, Ar := [], [], [], [];
      RHS1r, RHSr := [], [];
      R, z, S, q := [], [], [], [];
      born := [];
    }

    /** The constructor with its fatal checks: the stiffness and mass matrices must
        exist, and the basis storage must have room for a column. */
    static method Create(spaceop: SpaceOperator, maxSize: int, orthogType: OrthogType, gs: GramSchmidt, solvers: DenseSolvers)
      returns (r: Result<RomOperator>)
      requires CoefficientPerColumn(gs.snapshots) && SquareSvd(solvers.svd) && SizedSolve(solvers.lu)
      ensures spaceop.stiffness.None? || spaceop.mass.None? ==> r == Err(EmptyHdmMatrices)
      ensures spaceop.stiffness.Some? && spaceop.mass.Some? && maxSize <= 0 ==> r == Err(EmptyBasisStorage)
      ensures r.Ok? <==> spaceop.stiffness.Some? && spaceop.mass.Some? && maxSize > 0
      ensures r.Ok? ==> fresh(r.value) && r.value.Valid() && r.value.dimV == 0 && r.value.dimQ == 0
      ensures r.Ok? ==> r.value.maxSize == maxSize && r.value.spaceop == spaceop
    {
      if spaceop.stiffness.None? || spaceop.mass.None? {
        return Err(EmptyHdmMatrices);
      }
      if maxSize <= 0 {
        return Err(EmptyBasisStorage);
      }
      var rom := new RomOperator(spaceop, maxSize, orthogType, gs, solvers);
      return Ok(rom);
    }

    /** The A2 and RHS2 bookkeeping of SolveHDM: whether the extra matrix exists, and
        whether the second excitation is still present. */
    method SolveHDM(omega: real)
      requires Valid()
      modifies this`hasA2, this`hasRHS2
      ensures Valid()
      ensures hasA2 == spaceop.extraMatrix(omega).Some?
      ensures hasRHS2 == (old(hasRHS2) && spaceop.excitation2(omega).present)
    {
      hasA2 := spaceop.extraMatrix(omega).Some?;
      if hasRHS2 {
        hasRHS2 := spaceop.excitation2(omega).present;
      }
    }

    /** The capacity check on V only fails when the snapshot storage is full as
        well, since each update adds at most two basis vectors. */
    lemma BasisFullMeansSnapshotsFull(u: Block)
      requires Valid()
      ensures dimV + Parts(u) > |V| ==> dimQ + 1 > |Q|
    {
    }

    /** On and above the diagonal the kept matrices are Vᵀ K V, Vᵀ C V and Vᵀ M V,
        and RHS1r is Vᵀ RHS1. */
    lemma ReducedUpper()
      requires Valid()
      ensures forall i, j :: 0 <= i <= j < dimV ==> Kr[i][j] == Entry(K, V[i], V[j]) && Mr[i][j] == Entry(M, V[i], V[j])
      ensures C.Some? ==> forall i, j :: 0 <= i <= j < dimV ==> Cr[i][j] == Entry(C.value, V[i], V[j])
      ensures |RHS1.re| > 0 ==> forall i :: 0 <= i < dimV ==> RHS1r[i] == VecEntry(V[i], RHS1)
    {
      forall i, j | 0 <= i <= j < dimV
        ensures Kr[i][j] == Entry(K, V[i], V[j]) && Mr[i][j] == Entry(M, V[i], V[j])
        ensures C.Some? ==> Cr[i][j] == Entry(C.value, V[i], V[j])
      {
        GalerkinUpper(K, V, born, i, j);
        GalerkinUpper(M, V, born, i, j);
        if C.Some? {
          GalerkinUpper(C.value, V, born, i, j);
        }
      }
    }

    /** UpdatePROM on the real and imaginary parts u of the solution. The basis grows
        by has_real + has_imag vectors, the projected matrices and RHS1r by as many
        rows and columns, the snapshots by one, and omega is appended to z and S;
        Ar and RHSr are resized. */
    method Update(omega: real, u: Block) returns (status: Status)
      requires Valid()
      modifies this`V, this`Q, this`dimV, this`dimQ, this`born, this`Kr, this`Cr, this`Mr, this`Ar
      modifies this`RHS1r, this`RHSr, this`R, this`z, this`S, this`q
      ensures status == UpdateStatus(K, C, M, old(dimV), |old(V)|, old(dimQ), |old(Q)|, Parts(u))
      ensures status.Done? ==> Valid()
      ensures status.Done? ==> dimV == old(dimV) + Parts(u) && dimQ == old(dimQ) + 1
      ensures status.Done? ==> z == old(z) + [omega] && S == old(S) + [omega]
      ensures status.Done? ==> forall k :: 0 <= k < old(dimV) ==> V[k] == old(V[k])
      ensures status.Done? ==> V[old(dimV)..dimV] == NewVectors(gs, orthogType, old(V[..dimV]), u)
      ensures status.Done? ==> var col := gs.snapshots(orthogType, old(Q[..dimQ]), u);
        Q == old(Q)[old(dimQ) := col.column] && R == Bordered(old(R), col.coeffs, col.norm)
      ensures status.Done? ==> exists m :: MriIndex(solvers.svd(R).sigma, m) && q == Column(solvers.svd(R).v, m)
    {
      var V1, n1, Kr1, Cr1, Mr1, RHS1r1, Q1, R1, q1;
      ghost var born1;
      status, V1, n1, born1, Kr1, Cr1, Mr1, RHS1r1, Q1, R1, q1 :=
        UpdateModel(K, C, M, RHS1, gs, solvers.svd, orthogType, V, dimV, born, Kr, Cr, Mr, RHS1r, Q, dimQ, R, u);
      if status.Done? {
        StoreBasis(V1, n1, born1, Kr1, Cr1, Mr1, RHS1r1);
        StoreSnapshots(Q1, dimQ + 1, R1, z + [omega], S + [omega], q1);
      }
    }

    /** Stores a grown basis with the projections kept for it; Ar and RHSr are
        resized to the new dimension. */
    method StoreBasis(V1: seq<Vec>, n1: nat, ghost born1: seq<nat>,
                      Kr1: seq<seq<Complex>>, Cr1: seq<seq<Complex>>, Mr1: seq<seq<Complex>>, RHS1r1: seq<Complex>)
      modifies this`V, this`dimV, this`born, this`Kr, this`Cr, this`Mr, this`Ar, this`RHS1r, this`RHSr
      ensures V == V1 && dimV == n1 && born == born1 && Kr == Kr1 && Cr == Cr1 && Mr == Mr1 && RHS1r == RHS1r1
      ensures Ar == ZeroMatrix(n1) && RHSr == ZeroVector(n1)
    {
      V, dimV, born, Kr, Cr, Mr, Ar, RHS1r, RHSr := V1, n1, born1, Kr1, Cr1, Mr1, ZeroMatrix(n1), RHS1r1, ZeroVector(n1);
    }

    /** Stores the grown snapshot storage, its factor, the sample points and the
        coefficients ComputeMRI picked. */
    method StoreSnapshots(Q1: seq<Block>, m1: nat, R1: seq<seq<Complex>>, z1: seq<real>, S1: seq<real>, q1: seq<Complex>)
      modifies this`Q, this`dimQ, this`R, this`z, this`S, this`q
      ensures Q == Q1 && dimQ == m1 && R == R1 && z == z1 && S == S1 && q == q1
    {
      Q, dimQ, R, z, S, q := Q1, m1, R1, z1, S1, q1;
    }

    /** UpdatePROM(omega, u): adds the solution u at frequency omega to the model. */
    method UpdatePROM(omega: real, u: ComplexVector) returns (status: Status)
      requires Valid() && u.Valid()
      modifies this`V, this`Q, this`dimV, this`dimQ, this`born, this`Kr, this`Cr, this`Mr, this`Ar
      modifies this`RHS1r, this`RHSr, this`R, this`z, this`S, this`q
      ensures status == UpdateStatus(K, C, M, old(dimV), |old(V)|, old(dimQ), |old(Q)|, Parts(Block(u.Real(), u.Imag())))
      ensures status.Done? ==> Valid()
      ensures status.Done? ==> dimV == old(dimV) + Parts(Block(u.Real(), u.Imag())) && dimQ == old(dimQ) + 1
      ensures status.Done? ==> z == old(z) + [omega] && S == old(S) + [omega]
      ensures status.Done? ==> forall k :: 0 <= k < old(dimV) ==> V[k] == old(V[k])
      ensures status.Done? ==> V[old(dimV)..dimV] == NewVectors(gs, orthogType, old(V[..dimV]), Block(u.Real(), u.Imag()))
      ensures status.Done? ==> var col := gs.snapshots(orthogType, old(Q[..dimQ]), Block(u.Real(), u.Imag()));
        Q == old(Q)[old(dimQ) := col.column] && R == Bordered(old(R), col.coeffs, col.norm)
      ensures status.Done? ==> exists m :: MriIndex(solvers.svd(R).sigma, m) && q == Column(solvers.svd(R).v, m)
    {
      status := Update(omega, Block(u.Real(), u.Imag()));
    }

    // ---- SolvePROM ----

    /** SolvePROM(omega, u): assembles the reduced system Ar(ω) and right-hand side
        RHSr(ω), solves it with the LU collaborator, and expands the reduced solution
        in the basis into u. */
    method SolvePROM(omega: real, u: ComplexVector) returns (status: Status)
      requires Valid() && u.Valid()
      modifies this`Ar, this`RHSr, u.xr, u.xi
      ensures status == SolveStatus(hasA2, spaceop.extraMatrix(omega), hasRHS2, dimV)
      ensures status.Done? ==> Valid()
      ensures status.Done? ==> forall i, j :: 0 <= i <= j < dimV ==>
        Ar[i][j] == ProjectedSystemEntry(if hasA2 then spaceop.extraMatrix(omega) else None, K, C, M, V[i], V[j], omega)
      ensures status.Done? ==> forall i, j :: 0 <= i < dimV && 0 <= j < dimV ==>
        Ar[i][j] == KeptSystemEntry(if hasA2 then spaceop.extraMatrix(omega) else None, K, C, M, V, born, i, j, omega)
      ensures status.Done? ==> RHSr == solvers.lu(Ar, SystemRhs(ProjectedExcitation(V, dimV, hasRHS2, spaceop.excitation2(omega).vector),
                                                               RHS1r, |RHS1.re| > 0, omega))
      ensures status.Done? ==> u.Real() == Expansion(RealParts(RHSr), V, dimV, u.Size())
      ensures status.Done? ==> u.Imag() == Expansion(ImagParts(RHSr), V, dimV, u.Size())
    {
      var Ar1, b;
      status, Ar1, b := AssembleSystem(K, C, M, RHS1, V, born, dimV, Kr, Cr, Mr, RHS1r,
                                       hasA2, spaceop.extraMatrix(omega), hasRHS2, spaceop.excitation2(omega).vector, omega);
      if status.Failed? {
        return;
      }
      Ar, RHSr := Ar1, solvers.lu(Ar1, b);
      assert Valid();
      Expand(RHSr, V, dimV, u);
    }

    // ---- FindMaxError ----

    /** FindMaxError(start, delta, num_steps): the grid point where the surrogate of
        the kept coefficients q and sample points z is smallest. */
    method FindMaxError(start: real, delta: real, numSteps: int) returns (r: Result<real>)
      ensures r == MaxErrorOutcome(start, delta, numSteps, SurrogateOf(q, z))
    {
      r := RomKernels.FindMaxError(start, delta, numSteps, SurrogateOf(q, z));
    }
  }
}
