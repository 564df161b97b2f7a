# Palace reduced-order model core, in Dafny

This project models four parts of the Palace finite-element solver and proves
properties of the model.

- **RomOperator** (`palace/models/romoperator.cpp`) is the adaptive Galerkin
  reduced-order model of the frequency-domain problem K + iω C − ω² M + A2(ω).
  - It keeps a real orthonormal basis V, with up to two vectors per sampled
    solution.
  - It keeps the projected matrices Kr, Cr, Mr and the projected vector RHS1r.
    Each is grown incrementally by `ProjectMatInternal` and `ProjectVecInternal`.
  - It keeps the QR factor R of the snapshot matrix. The minimal rational
    interpolation weights q come from R (`ComputeMRI`), and `FindMaxError`
    scans a frequency grid with them.
  - `SolvePROM` assembles and solves the reduced system, then expands the
    reduced solution in the basis.
- **ComplexVector** and the **linalg** free functions
  (`palace/linalg/vector.cpp`) are element-wise kernels over the real and
  imaginary arrays of a complex vector: interleaved `Set`/`Get`, `SetBlocks`,
  scaling, `Conj`, AXPY, the dot products, every `SetSubVector` overload, the
  sign map of `SetRandomSign`, and `LocalDot`.
- **PortExcitationHelper** (`palace/models/portexcitationhelper.hpp`) groups the
  excited lumped ports, wave ports and surface currents by excitation index.
- **PeriodicBoundaryOperator** (`palace/models/periodicboundaryoperator.cpp`)
  does three things:
  - it filters the configured donor and receiver attributes against the mesh;
  - it sorts the accepted attributes;
  - it checks the Floquet wave vector and builds the cross-product matrix
    [k×].

How the model is built:

- Floating-point scalars are Dafny `real`. Complex numbers are pairs of reals.
- Every MFEM_VERIFY failure is an error value (`Scalars.Fatal`) returned in a
  `Status` or a `Result`. A debug-only MFEM_ASSERT is a precondition.
- Code that changes state stays imperative:
  - `ComplexVector` is a class over two arrays;
  - the projections fill an `array2` in place;
  - `RomOperator` and `PortExcitationHelper` are classes whose methods update
    their fields;
  - the loops of the source are `while` loops with invariants.
- Each method is proved against a specification function of its inputs. The
  properties of that function are then proved as lemmas. Examples:
  `RomKernels.Galerkin` for the kept projections, `PortExcitation.Build` for
  the excitation map, and `PeriodicBoundary.Selected` for the accepted
  attributes.

Collaborators the core calls but does not contain are parameters:

- the operators K, C, M and A2(ω), as functions on real vectors;
- the SpaceOperator queries;
- Gram-Schmidt orthogonalization;
- Eigen's JacobiSVD and LU solve;
- the error surrogate, as a function of the grid point.

The properties these collaborators guarantee about the shape of their results
are stated as predicates. The constructor requires them:

- one orthogonalization coefficient per leading column;
- an S×S SVD of an S×S matrix;
- a solution of the right-hand side's size.

Inner products are local sums, because the global MPI sum is the identity on
one process.

Three details of the error estimate, as the source has them:

- `ComputeMRI` steps down past every singular value σ[m] below
  `ORTHOG_TOL · σ[0]` (palace/models/romoperator.cpp:122-129).
- `FindMaxError` fails for any chosen point omega_star ≤ 0
  (palace/models/romoperator.cpp:383). It therefore also fails when the grid
  has no step.
- The code evaluates q_s / (z_s − ω) (palace/models/romoperator.cpp:376).
  The comment at line 366 writes the denominator as Σ q_s / (ω − z_s). The two
  sums differ only in sign, so the modulus the scan compares is the same
  (`RomKernels.Terms`, `RomKernels.Surrogate`).

## Model

| member | source | states |
|---|---|---|
| RealVectors.AxpbyThenAxpy | palace/linalg/vector.cpp:713-725 | the γ ≠ 0 branch of AXPBYPCZ (AXPBY on z, then z += βy) gives αx + βy + γz, the same as the γ = 0 branch |
| RealVectors.DotSymmetric | palace/linalg/vector.cpp:265-276 | x · y = y · x, which makes the self-dot shortcuts agree with the general formula |
| RealVectors.DotSelfNonNegative | palace/linalg/vector.cpp:643-648 | x · x ≥ 0 |
| ComplexVectors.SplitInterleave | palace/linalg/vector.cpp:79-139 | the even and odd entries of an interleaved complex array are the real and imaginary parts it was built from |
| ComplexVectors.InterleaveSplit | palace/linalg/vector.cpp:79-139 | interleaving the even and odd entries of an even-length array gives the array back |
| ComplexVectors.RealScalarProduct | palace/linalg/vector.cpp:205-229 | for a scalar with zero imaginary part, the general complex product equals scaling both parts by the real part |
| ComplexVectors.NegatedTwice | palace/linalg/vector.cpp:231-234 | negating twice is the identity |
| ComplexVectors.ConcatStep | palace/linalg/vector.cpp:182-203 | each block extends the concatenation by s[b]·y[b] |
| ComplexVectors.FittingBlocksCover | palace/linalg/vector.cpp:182-186 | when every block passes the size check, the sizes add up to exactly Size() and every earlier block ends strictly inside the vector |
| ComplexVectors.RefParts | palace/linalg/vector.cpp:54-61 | requires y.Size() ≥ offset + 2·size; the real part views y[offset, offset+size) and the imaginary part views y[offset+size, offset+2·size) |
| ComplexVectors.ComplexVector.constructor | palace/linalg/vector.cpp:15 | both parts are fresh arrays of the given size |
| ComplexVectors.ComplexVector.Set | palace/linalg/vector.cpp:79-93 | requires size == Size(); afterwards the real part is the even entries and the imaginary part the odd entries of the interleaved array |
| ComplexVectors.ComplexVector.Get | palace/linalg/vector.cpp:125-139 | requires size == Size(); the first 2·Size() entries of the output are the interleaved parts, and the rest of the array is unchanged |
| ComplexVectors.ComplexVector.SetParts | palace/linalg/vector.cpp:63-78 | both parts become copies of the given parts, whose sizes must match |
| ComplexVectors.ComplexVector.Fill | palace/linalg/vector.cpp:167-173 | every entry becomes s |
| ComplexVectors.ComplexVector.WriteBlock | palace/linalg/vector.cpp:187-201 | s·blk is written at positions offset … offset+N−1, after the blocks already written, which are kept |
| ComplexVectors.ComplexVector.AppendBlock | palace/linalg/vector.cpp:182-202 | after block b the parts begin with the concatenation of blocks 0 … b |
| ComplexVectors.ComplexVector.SetBlocks | palace/linalg/vector.cpp:174-204 | fatal unless every block exists and ends strictly inside the vector, except the last, which ends exactly at Size(); otherwise the vector is the concatenation of s[b]·y[b], with scale 1 when s is empty; with no blocks nothing changes |
| ComplexVectors.ComplexVector.Scale | palace/linalg/vector.cpp:205-230 | x becomes s·x by the complex product, on both the real fast path and the general path |
| ComplexVectors.ComplexVector.ScaleByReal | palace/linalg/vector.cpp:209-213 | both parts are scaled by the real scalar |
| ComplexVectors.ComplexVector.ScaleByComplex | palace/linalg/vector.cpp:214-228 | the general kernel computes the complex product s·x entry by entry |
| ComplexVectors.ComplexVector.Conj | palace/linalg/vector.cpp:231-235 | only the imaginary part is negated; the real array is outside the frame |
| ComplexVectors.ComplexVector.Axpy | palace/linalg/vector.cpp:278-314 | y becomes y + α·x by the complex product, on both the ai = 0 path and the general path |
| ComplexVectors.ComplexVector.AxpyByReal | palace/linalg/vector.cpp:294-302 | the ai = 0 kernel adds ar times each part |
| ComplexVectors.ComplexVector.AxpyByComplex | palace/linalg/vector.cpp:303-313 | the general kernel adds the complex product α·x entry by entry |
| ComplexVectors.ComplexVector.Dot | palace/linalg/vector.cpp:265-270 | yᴴx as real and imaginary sums of dot products; with y the same object, the imaginary part is 0 and the real part is ‖Re‖² + ‖Im‖² |
| ComplexVectors.ComplexVector.TransposeDot | palace/linalg/vector.cpp:271-277 | yᵀx as real and imaginary sums of dot products; with y the same object, the imaginary part is 2·(Im · Re) |
| ComplexVectors.GetThenSet | palace/linalg/vector.cpp:79-139 | Get followed by Set on the same array leaves the vector as it was |
| ComplexVectors.ConjTwice | palace/linalg/vector.cpp:231-234 | Conj twice leaves the vector as it was |
| Linalg.RangeMembers | palace/linalg/vector.cpp:534-543 | k is in start … end−1 iff start ≤ k < end |
| Linalg.SetRangeIsSetRows | palace/linalg/vector.cpp:465-478 | the range overload of SetSubVector equals the index-list overload on the rows start … end−1 |
| Linalg.SetRowsIdempotent | palace/linalg/vector.cpp:465-478 | setting the same rows twice is setting them once; setting rows to the value they hold changes nothing |
| Linalg.CopyRowsAgrees | palace/linalg/vector.cpp:499-512 | after copying, x agrees with y on every listed row, and copying again changes nothing |
| Linalg.SetSubVectorRows | palace/linalg/vector.cpp:465-478 | x[id] = s at every listed id; every other entry is unchanged |
| Linalg.SetSubVectorRowsComplex | palace/linalg/vector.cpp:481-496 | the real part is s and the imaginary part is 0 at every listed id; all else is unchanged |
| Linalg.SetSubVectorCopy | palace/linalg/vector.cpp:499-512 | x[id] = y[id] only at the listed ids |
| Linalg.SetSubVectorCopyComplex | palace/linalg/vector.cpp:515-531 | both parts take y's values only at the listed ids |
| Linalg.SetSubVectorRange | palace/linalg/vector.cpp:534-543 | requires 0 ≤ start ≤ end ≤ size; exactly the entries start … end−1 become s |
| Linalg.SetSubVectorRangeComplex | palace/linalg/vector.cpp:546-561 | requires 0 ≤ start ≤ end ≤ size; on exactly start … end−1 the real part becomes s and the imaginary part 0 |
| Linalg.Sign | palace/linalg/vector.cpp:589-590 | the result is 1, −1 or 0, has the sign of its input, and is 0 exactly at 0 |
| Linalg.SignsIdempotent | palace/linalg/vector.cpp:583-591 | applying the sign map twice is applying it once |
| Linalg.SetSign | palace/linalg/vector.cpp:583-591 | every entry is replaced by its sign |
| Linalg.SetSignComplex | palace/linalg/vector.cpp:619-632 | the entries of both parts are replaced by their signs |
| Linalg.LocalDot | palace/linalg/vector.cpp:634-641 | the local inner product, which is symmetric in its arguments |
| Linalg.LocalDotComplex | palace/linalg/vector.cpp:643-654 | yᴴx as sums of local dot products; with x and y the same object, the imaginary part is 0 and the real part ≥ 0 |
| Linalg.AddScaledReal | palace/linalg/vector.cpp:677 | y becomes y + α·x |
| Linalg.AxpyReal | palace/linalg/vector.cpp:669-679 | both branches (α = 1 and otherwise) give y + α·x |
| Linalg.AxpbyReal | palace/linalg/vector.cpp:694-697 | z becomes α·x + β·z |
| Linalg.AxpbypczReal | palace/linalg/vector.cpp:713-725 | both branches (γ = 0 and otherwise) give α·x + β·y + γ·z |
| Dense.ZeroMatrix | palace/models/romoperator.cpp:310 | setZero: an n×n matrix of zeros |
| Dense.ZeroVector | palace/models/romoperator.cpp:326 | setZero: n zeros |
| Dense.ResizedMatrix | palace/models/romoperator.cpp:253 | conservativeResize keeps the leading block that fits; the other entries are 0 |
| Dense.ResizedVector | palace/models/romoperator.cpp:265 | conservativeResize keeps the leading entries that fit; the others are 0 |
| RomKernels.FillColumn | palace/models/romoperator.cpp:57-76 | column j becomes vᵢ·(Re A)vⱼ + i vᵢ·(Im A)vⱼ for every row i, a missing part giving 0; other columns are unchanged |
| RomKernels.MirrorColumn | palace/models/romoperator.cpp:81-87 | rows n0 … n−1 of column j take the values of row j; everything else is unchanged |
| RomKernels.ProjectMatInternal | palace/models/romoperator.cpp:47-88 | fatal unless n0 < n, then fatal for an operator with neither part, with nothing written in either case; otherwise the new columns hold vᵢ·A vⱼ, the new rows left of n0 hold the transpose, and the leading n0×n0 block is unchanged |
| RomKernels.IncrementalProjection | palace/models/romoperator.cpp:250-261 | a matrix that held the kept projection for n0 vectors holds it for all n after resize and ProjectMatInternal |
| RomKernels.GalerkinFrame | palace/models/romoperator.cpp:250-252 | the kept projection onto the first n vectors depends only on those vectors and their update numbers |
| RomKernels.GalerkinOfSymmetric | palace/models/romoperator.cpp:52-54 | for an operator that is symmetric on the basis, the kept matrix is all of VᵀAV and is symmetric |
| RomKernels.GalerkinUpper | palace/models/romoperator.cpp:79-87 | on and above the diagonal the kept matrix is VᵀAV, whatever the history of updates |
| RomKernels.ProjectVecInternal | palace/models/romoperator.cpp:90-104 | fatal unless n0 < n; writes exactly the entries i ≥ n0 as (Vᵢ·Re b, Vᵢ·Im b) and keeps the entries below n0 |
| RomKernels.Column | palace/models/romoperator.cpp:130 | column m of the V factor |
| RomKernels.MriIndexUnique | palace/models/romoperator.cpp:122-129 | at most one index has the three properties of the selected column, so they define it |
| RomKernels.ComputeMRI | palace/models/romoperator.cpp:106-131 | requires S > 0 and R square; the selected m satisfies 0 ≤ m ≤ S−1, σ[k] < tol·σ[0] for every k > m, and m = 0 or σ[m] ≥ tol·σ[0]; q is column m of V |
| RomKernels.NormalizedGrid | palace/models/romoperator.cpp:367-371 | after a negative step is rewritten, the same grid points are scanned in ascending order |
| RomKernels.GridMonotone | palace/models/romoperator.cpp:375 | a nonnegative step gives a nondecreasing grid |
| RomKernels.Surrogate | palace/models/romoperator.cpp:376 | the squared modulus of Σ q_s / (z_s − ω) over as many samples as both q and z have, which equals that of the barycentric denominator Σ q_s / (ω − z_s), and is ≥ 0; None exactly when ω is a sample point, where the source gets an infinite term |
| RomKernels.Terms | palace/models/romoperator.cpp:376 | the source's sum Σ_{s<n} q_s / (z_s − ω) is the negation of the barycentric denominator Σ_{s<n} q_s / (ω − z_s) that the comment at line 366 writes |
| RomKernels.Values | palace/models/romoperator.cpp:373-376 | entry k is the surrogate at grid point k |
| RomKernels.FirstMin | palace/models/romoperator.cpp:372-382 | None iff no value is finite; otherwise an index of a smallest finite value before which every finite value is strictly larger (a strict `<` keeps the first) |
| RomKernels.FirstMinSnoc | palace/models/romoperator.cpp:377-381 | one more value replaces the running minimum only when it is strictly smaller |
| RomKernels.Scan | palace/models/romoperator.cpp:372-382 | the scan loop with running omega_star and Q_star ends at the first minimizer, or at 0 when no value is finite |
| RomKernels.MaxErrorFailure | palace/models/romoperator.cpp:366-383 | the outcome is fatal only when no grid point has a finite surrogate or a grid point where the surrogate is smallest is ≤ 0; so it succeeds whenever some value is finite and every grid point is positive |
| RomKernels.MaxErrorMeaning | palace/models/romoperator.cpp:363-385 | a successful result is a positive point of the original grid where the surrogate is minimal and the lowest such point; with no finite surrogate value, including no steps, the outcome is fatal |
| RomKernels.FindMaxError | palace/models/romoperator.cpp:363-385 | the step is normalized, the grid is scanned, and a result ≤ 0 is fatal |
| RomKernels.ExpansionEntry | palace/models/romoperator.cpp:347-360 | entry i of Σⱼ cⱼVⱼ is the dot product of c with the entries i of the basis vectors |
| RomKernels.PairStep | palace/models/romoperator.cpp:350-354 | one AXPBYPCZ step of the pairwise loop adds the terms of two basis vectors |
| RomKernels.Expand | palace/models/romoperator.cpp:347-360 | the pairwise loop, which handles an odd last column singly, yields u = Σⱼ RHSr(j)·V[j] for the real and imaginary parts |
| RomOperators.Parts | palace/models/romoperator.cpp:225-228 | has_real + has_imag is 0, 1 or 2 |
| RomOperators.PartsOfZero | palace/models/romoperator.cpp:225-228 | a solution adds no basis vector exactly when it is zero |
| RomOperators.Bordered | palace/models/romoperator.cpp:275-282 | R grows by one row and one column: the old block is kept, the new column holds the orthogonalization coefficients and the norm, and the new row is zero left of the diagonal |
| RomOperators.BorderedUpper | palace/models/romoperator.cpp:275-282 | bordering keeps R upper triangular |
| RomOperators.NumberedGrows | palace/models/romoperator.cpp:231-248 | the vectors of a new update extend the numbering and form the last batch |
| RomOperators.ReducedFrame | palace/models/romoperator.cpp:250-252 | the kept projections onto the first n vectors survive changes to later basis entries |
| RomOperators.NewVectors | palace/models/romoperator.cpp:231-248 | has_real + has_imag vectors: the first, when the real part is not negligible, is the Gram-Schmidt result for the real part against the basis; the last, when the imaginary part is not negligible, is the one for the imaginary part against the basis and the vector just added |
| RomOperators.ExtendBasis | palace/models/romoperator.cpp:222-248 | fatal unless dim_V + has_real + has_imag fits the storage; otherwise the non-negligible real part and then the imaginary part are each passed, with the basis so far, through the orthogonalize-and-normalize collaborator and appended (NewVectors), and the earlier and later entries are unchanged |
| RomOperators.ProjectGrown | palace/models/romoperator.cpp:253-261 | resize and ProjectMatInternal turn the kept projection for n0 vectors into the one for n vectors, with ProjectMatInternal's fatal cases |
| RomOperators.ProjectGrownVector | palace/models/romoperator.cpp:263-267 | resize and ProjectVecInternal turn Vᵀb on n0 vectors into Vᵀb on n vectors |
| RomOperators.ProjectOperators | palace/models/romoperator.cpp:250-268 | Kr, Cr (only with a damping matrix), Mr and RHS1r (only with a RHS1) become the projections onto all n vectors; fatal for no new vector or a zero operator |
| RomOperators.AddSnapshot | palace/models/romoperator.cpp:273-285 | the column the orthogonalize-and-normalize collaborator returns is stored as the new snapshot, R is bordered with its coefficients and its reported norm, stays upper triangular and grows by one, and q is the singular vector that ComputeMRI selects |
| RomOperators.UpdateModel | palace/models/romoperator.cpp:220-295 | the fatal checks in source order; on success dim_V grows by has_real + has_imag, the kept projections are correct for the new basis, the old basis vectors are unchanged, the new ones are NewVectors of the old basis and u, and the snapshots grow by one |
| RomOperators.SystemUpper | palace/models/romoperator.cpp:303-317 | on and above the diagonal, the assembled Ar equals the projection of (A2 or 0) + K + iω C − ω² M |
| RomOperators.ProjectExtra | palace/models/romoperator.cpp:303-311 | VᵀA2V when has_A2 holds, else 0; fatal for a null A2, an empty basis or a zero operator |
| RomOperators.ProjectExcitation | palace/models/romoperator.cpp:319-327 | VᵀRHS2 when has_RHS2 holds, else 0; fatal for an empty basis |
| RomOperators.AssembleSystem | palace/models/romoperator.cpp:303-331 | Ar = (VᵀA2V or 0) + Kr + iω Cr (only when Cr exists) − ω² Mr: on and above the diagonal it is the projected system, and every entry, below the diagonal included, is the one assembled from the kept (mirrored) entries of Kr, Cr and Mr; RHSr = (VᵀRHS2 or 0) + iω RHS1r (only with a RHS1) |
| RomOperators.RomOperator.constructor | palace/models/romoperator.cpp:135-184 | storage for 2·max_size basis vectors and max_size snapshots, both counters 0, has_A2 and has_RHS2 set, K, C, M and RHS1 taken from the SpaceOperator, and the invariant established |
| RomOperators.RomOperator.Create | palace/models/romoperator.cpp:142-170 | fatal without K or M, fatal unless max_size > 0, and otherwise an empty model |
| RomOperators.RomOperator.SolveHDM | palace/models/romoperator.cpp:191-209 | has_A2 records whether the extra matrix exists at ω; has_RHS2 stays true only while the second excitation is reported |
| RomOperators.RomOperator.BasisFullMeansSnapshotsFull | palace/models/romoperator.cpp:229-230 | the basis capacity check can fail only when the snapshot storage is full as well |
| RomOperators.RomOperator.ReducedUpper | palace/models/romoperator.cpp:250-268 | on and above the diagonal Kr, Cr and Mr are VᵀKV, VᵀCV and VᵀMV, and RHS1r is VᵀRHS1 |
| RomOperators.RomOperator.Update | palace/models/romoperator.cpp:220-295 | the fatal checks of UpdatePROM; on success the invariant is kept, dim_V grows by has_real + has_imag, dim_Q by 1, ω is appended to z and S, old basis vectors are kept, the new ones are NewVectors of the old basis and u, and Q, R and q are updated as in AddSnapshot |
| RomOperators.RomOperator.StoreBasis | palace/models/romoperator.cpp:235-268 | the grown basis and projections are stored; Ar and RHSr are resized to the new dimension |
| RomOperators.RomOperator.StoreSnapshots | palace/models/romoperator.cpp:273-294 | the grown snapshots, R, z, S and q are stored |
| RomOperators.RomOperator.UpdatePROM | palace/models/romoperator.cpp:220-295 | Update on the real and imaginary parts of u: the same fatal checks, invariant, counters, z and S, kept and new basis vectors, snapshot storage, bordered R and MRI-selected q |
| RomOperators.RomOperator.SolvePROM | palace/models/romoperator.cpp:297-361 | the fatal checks; on success Ar is the projected system on and above the diagonal and, everywhere, the system assembled from the kept entries; RHSr is the LU solve of the assembled right-hand side, and u = Σⱼ RHSr(j)·V[j] |
| RomOperators.RomOperator.FindMaxError | palace/models/romoperator.cpp:363-385 | the scan outcome for the kept q and z, whose meaning MaxErrorMeaning and MaxErrorFailure state |
| PortExcitation.Flatten | palace/models/portexcitationhelper.hpp:27-34 | lumped ++ wave ++ current: the length is the sum of the three lengths, each part sits in its place, and membership is the union |
| PortExcitation.CurrentsOnStep | palace/models/portexcitationhelper.hpp:76-79 | overwriting one more entry's current list |
| PortExcitation.CurrentsOnNone | palace/models/portexcitationhelper.hpp:74-80 | with no entry visited, the map is unchanged |
| PortExcitation.CurrentsOnAll | palace/models/portexcitationhelper.hpp:74-80 | with every entry visited, every excitation has the full current list |
| PortExcitation.PortsOfMembers | palace/models/portexcitationhelper.hpp:48-65 | an index is listed for e iff some port with that index has excitation e |
| PortExcitation.InsertAllSpec | palace/models/portexcitationhelper.hpp:48-65 | a port loop adds exactly the nonzero excitations it meets, never 0, and appends that kind's ports in input order |
| PortExcitation.BuildKeys | palace/models/portexcitationhelper.hpp:48-65 | the keys are exactly the nonzero excitations of the lumped and wave ports |
| PortExcitation.BuildContents | palace/models/portexcitationhelper.hpp:48-80 | each excitation lists its lumped ports and wave ports in input order, and every surface current |
| PortExcitation.UnexcitedPortExcluded | palace/models/portexcitationhelper.hpp:50-62 | a port whose excitation is 0 appears in no excitation |
| PortExcitation.NoExcitationsDropsCurrents | palace/models/portexcitationhelper.hpp:69-80 | with no excited port the map is empty, so the surface currents are dropped |
| PortExcitation.SortedKeys | palace/models/portexcitationhelper.hpp:37 | the keys in strictly ascending order, as std::map iterates them |
| PortExcitation.PortExcitationHelper.constructor | palace/models/portexcitationhelper.hpp:44-81 | the map is Build of the three inputs |
| PortExcitation.PortExcitationHelper.AddPorts | palace/models/portexcitationhelper.hpp:48-65 | one port loop: skip excitation 0, try_emplace, then push_back |
| PortExcitation.PortExcitationHelper.CurrentIndices | palace/models/portexcitationhelper.hpp:69-73 | the current indices in input order |
| PortExcitation.PortExcitationHelper.SetCurrents | palace/models/portexcitationhelper.hpp:76-79 | every excitation's current list becomes the full list |
| PortExcitation.PortExcitationHelper.SetCurrent | palace/models/portexcitationhelper.hpp:78 | one entry's current list is overwritten |
| PortExcitation.PortExcitationHelper.MaxIdx | palace/models/portexcitationhelper.hpp:83-91 | 0 without excitations, otherwise the largest key |
| PortExcitation.PortExcitationHelper.MaxIdxAsWritten | palace/models/portexcitationhelper.hpp:90 | the iterator it dereferences points at no element whenever the map is nonempty |
| PortExcitation.PortExcitationHelper.Size | palace/models/portexcitationhelper.hpp:92 | the number of excitations: 0 iff the map is empty, and the length of the ordered key list |
| PortExcitation.PortExcitationHelper.Empty | palace/models/portexcitationhelper.hpp:93 | true iff Size() is 0, in which case MaxIdx() is 0 |
| PeriodicBoundary.MaxAttr | palace/models/periodicboundaryoperator.cpp:83 | 0 for no attributes, otherwise an attribute no smaller than any other |
| PeriodicBoundary.ValidIff | palace/models/periodicboundaryoperator.cpp:89-99 | for positive mesh attributes, an attribute is accepted iff it is ≥ 1 and on the mesh |
| PeriodicBoundary.FilterMembers | palace/models/periodicboundaryoperator.cpp:126-141 | an attribute is kept iff it is listed and accepted |
| PeriodicBoundary.FilterConcat | palace/models/periodicboundaryoperator.cpp:122-142 | filtering a concatenation filters each part, so order is kept |
| PeriodicBoundary.FilterAllValid | palace/models/periodicboundaryoperator.cpp:126-141 | a list of accepted attributes passes unchanged, duplicates included |
| PeriodicBoundary.SelectedIsFilter | palace/models/periodicboundaryoperator.cpp:122-144 | the output is the accepted attributes of all entries, donors before receivers, in order |
| PeriodicBoundary.AllValidSelected | palace/models/periodicboundaryoperator.cpp:122-144 | when every named attribute is accepted, all of them are output in configuration order with duplicates |
| PeriodicBoundary.AllAttributesMembers | palace/models/periodicboundaryoperator.cpp:94-111 | an attribute is listed iff some entry names it |
| PeriodicBoundary.RejectedMembers | palace/models/periodicboundaryoperator.cpp:93-111 | the warning set is exactly the named attributes that are not accepted |
| PeriodicBoundary.SelectedOrWarned | palace/models/periodicboundaryoperator.cpp:93-142 | an attribute is output iff it is named and accepted; a warned attribute is never output; every named attribute is one or the other |
| PeriodicBoundary.MarkAttributes | palace/models/periodicboundaryoperator.cpp:87-92 | marker[a−1] is set iff a is a mesh boundary attribute |
| PeriodicBoundary.Accept | palace/models/periodicboundaryoperator.cpp:128 | the marker test is the acceptance predicate |
| PeriodicBoundary.WarnRejected | palace/models/periodicboundaryoperator.cpp:97-110 | every rejected attribute of a list joins the warning set |
| PeriodicBoundary.AppendAccepted | palace/models/periodicboundaryoperator.cpp:126-141 | every accepted attribute of a list is appended, in order |
| PeriodicBoundary.SetUpBoundaryProperties | palace/models/periodicboundaryoperator.cpp:78-145 | the output is the selection and the warning set is the rejection; with no periodic entries both are empty |
| PeriodicBoundary.InsertBehindHead | palace/models/periodicboundaryoperator.cpp:26 | putting the head back in front of a sorted insertion into the tail gives a sorted insertion into the whole |
| PeriodicBoundary.InsertSorted | palace/models/periodicboundaryoperator.cpp:26 | inserting into a sorted list gives a sorted list with one more occurrence of x |
| PeriodicBoundary.Sort | palace/models/periodicboundaryoperator.cpp:26 | std::sort yields a sorted permutation |
| PeriodicBoundary.CrossMatrixSkew | palace/models/periodicboundaryoperator.cpp:64-75 | [k×] has a zero diagonal and is skew-symmetric |
| PeriodicBoundary.CrossMatrixMult | palace/models/periodicboundaryoperator.cpp:64-75 | [k×]·v = k × v |
| PeriodicBoundary.ConstructorChecks | palace/models/periodicboundaryoperator.cpp:30-42 | passes iff the wave vector length equals the space dimension, the dimension is 3, and a nonzero wave vector comes with a driven or eigenmode problem; the first failing check is reported |
| PeriodicBoundary.PeriodicBoundaryOperator.constructor | palace/models/periodicboundaryoperator.cpp:17-76 | periodic_attr is the sorted attributes; the flag records a nonzero wave vector; [k×] is built from the folded wave vector |
| PeriodicBoundary.PeriodicBoundaryOperator.BuildCross | palace/models/periodicboundaryoperator.cpp:68-75 | the matrix assigned entry by entry is [k×] |
| PeriodicBoundary.PeriodicBoundaryOperator.AddRealMassCoefficients | palace/models/periodicboundaryoperator.cpp:147-169 | a no-op for a zero wave vector; otherwise one [k×]ᵀμ⁻¹[k×] term is added |
| PeriodicBoundary.PeriodicBoundaryOperator.AddWeakCurlCoefficients | palace/models/periodicboundaryoperator.cpp:171-189 | a no-op for a zero wave vector; otherwise one μ⁻¹[k×] term is added |
| PeriodicBoundary.PeriodicBoundaryOperator.AddCurlCoefficients | palace/models/periodicboundaryoperator.cpp:191-209 | a no-op for a zero wave vector; otherwise one [k×]ᵀμ⁻¹ term is added |
| PeriodicBoundary.Create | palace/models/periodicboundaryoperator.cpp:17-42 | fatal iff a constructor check fails, with that check's error; otherwise periodic_attr is the sorted selection and wave_vector_cross is [k×] of the folded wave vector |

## Left out

- The MSLP, RII and SolveNEP deflation and the eigenvalue estimates of `ComputeEigenvalueEstimates` (palace/models/romoperator.cpp:387-936) use Eigen eigensolvers, random starting vectors and floating-point convergence tests.
- The commented-out blocks of romoperator.cpp are not modelled.
- RomOperators.RomOperator.SolveHDM models only the has_A2 and has_RHS2 bookkeeping. The KSP solve, the preconditioner and the excitation vector r it builds are floating-point solver work outside the core.
- Gram-Schmidt (`OrthogonalizeColumnMGS`/`CGS`) lives in orthog.hpp, which is not part of this model. The orthogonalization type is only passed to the collaborator. The switch of `OrthogonalizeColumn` (romoperator.cpp:33-44, where CGS2 is CGS with refinement) and the mapping from the configured type (romoperator.cpp:172-183) are not modelled. Orthogonality itself is not modelled either.
- RomOperators.ExtendBasis: the normalization `V[dim_V] *= 1 / Norml2(V[dim_V])` (romoperator.cpp:237-238, 245-246) is folded into the collaborator `gs.basis`. No contract says that a new basis vector is the orthogonalized vector divided by its norm. A part that passes has_real or has_imag but lies in the span of the basis has norm 0 after orthogonalization. There the source divides by zero and still increments dim_V; the model just appends whatever the collaborator returns. The same holds for UpdateModel, Update and UpdatePROM.
- RomOperators.AddSnapshot: likewise, `R(dim_Q, dim_Q) = Norml2(Q[dim_Q])` and the division by it (romoperator.cpp:281-282) are folded into `gs.snapshots`. The diagonal entry of R is the norm the collaborator reports, and no contract ties it to the stored column. The division by a zero norm is not modelled.
- Eigen's JacobiSVD and LU solve are abstract functions. Their shape guarantees are the predicates `CoefficientPerColumn`, `SquareSvd` and `SizedSolve`, which the constructor requires.
- The operators K, C, M and A2(ω) are abstract functions. The inner products `V[i]·w` are local sums with `Mpi::GlobalSum` as the identity, so MPI, devices, OpenMP, hypre and libCEED are left out.
- RomOperators.UpdateModel: rounding in the floating-point test of has_real/has_imag is not modelled. It is compared on squared norms, which is exact in the reals.
- RomOperators.RomOperator.SolvePROM: below the diagonal, Ar is characterized as assembled from the mirrored entries of Kr, Cr and Mr (`KeptSystemEntry`), not as the projection of the full system. The two agree only for operators symmetric on the basis (RomKernels.GalerkinOfSymmetric), which the model does not assume. This also holds for RomOperators.AssembleSystem.
- RomOperators.RomOperator.Update: after a fatal check the model's state is unspecified, because the source aborts.
- The scratch vector r of the RomOperator is not modelled: each projection uses the operator's result directly.
- The error surrogate is the squared modulus of Σ q_s/(z_s − ω). A grid point equal to a sample point, where the source gets inf or NaN, is None. That value never compares smaller, as in the source.
- A2(ω) reported present but null is the error `NullExtraMatrix`; the source would dereference a null pointer there.
- Entries that Eigen leaves uninitialized after `resize` (Ar, RHSr) are modelled as 0.
- ComplexVectors.RefParts: `MakeRef` is modelled on values. Aliasing of the two parts into a caller's buffer is not; the class keeps two separate arrays.
- The ComplexVector constructors other than the sized one, `UseDevice`, `SetSize`, `Abs`, `Reciprocal`, `Sqrt`, `LocalSum`, and the complex `AXPBY`/`AXPBYPCZ` member kernels (palace/linalg/vector.cpp:315-464) are not modelled. They are plumbing or floating-point functions outside the listed core.
- `SetRandom` and `SetRandomReal` draw random numbers. Only the sign map that `SetRandomSign` applies afterwards is modelled (Linalg.SetSign).
- PeriodicBoundary.PeriodicBoundaryOperator.constructor: the fmod/π folding of the wave vector into [−π/L, π/L] and the mesh bounding box are not modelled. The folded wave vector is an input.
- PeriodicBoundary.Sort: `std::sort` of `periodic_attr` is modelled on a sequence value, not in place.
- PeriodicBoundary.PeriodicBoundaryOperator.AddRealMassCoefficients: the DenseTensor products with the inverse permeability are not modelled, and likewise in the other two adders. A term records its kind, its coefficient and [k×].
- The warning and pretty-printing output, JSON `to_json`/`from_json`, `FmtLog`, and the libCEED quadrature-point kernels are I/O or floating-point kernels and are left out.

## Findings

| source | as written | input that shows it | evidently intended | confidence | as-written member | corrected member |
|---|---|---|---|---|---|---|
| palace/models/portexcitationhelper.hpp:90 | `MaxIdx` returns `std::next(std::rend(excitations))->first`, which advances a reverse iterator one step past rend and dereferences it | any nonempty map, e.g. one lumped port with excitation 1 | the largest key, the first element of the reverse order (`std::rbegin`), as the comment on line 89 says | not executed | PortExcitation.PortExcitationHelper.MaxIdxAsWritten | PortExcitation.PortExcitationHelper.MaxIdx |
