/** PeriodicBoundaryOperator: the periodic boundary attributes accepted from
    the configuration, the checks on the Floquet wave vector, and the matrix
    [k x] of the cross product with it. */
module PeriodicBoundary {
  import opened Scalars
  import opened RealVectors

  /** One periodic boundary entry of the configuration. */
  datatype PeriodicData = PeriodicData(donor: seq<int>, receiver: seq<int>)

  datatype ProblemType = Driven | Eigenmode | Transient | Electrostatic | Magnetostatic

  // ---- which attributes are accepted ----

  /** mesh.bdr_attributes.Max(), or 0 when the mesh has no boundary attribute. */
  function MaxAttr(bdr: seq<int>): (r: int)
    ensures |bdr| == 0 ==> r == 0
    ensures |bdr| > 0 ==> r in bdr && forall i :: 0 <= i < |bdr| ==> bdr[i] <= r
    decreases |bdr|
  {
    if |bdr| == 0 then 0
    else if |bdr| == 1 then bdr[0]
    else
      var m := MaxAttr(bdr[..|bdr| - 1]);
      assert forall i :: 0 <= i < |bdr| - 1 ==> bdr[..|bdr| - 1][i] == bdr[i];
      if bdr[|bdr| - 1] > m then bdr[|bdr| - 1] else m
  }

  /** The test of the source: 1 <= attr <= bdr_attr_max and marked present. */
  predicate Valid(bdr: seq<int>, attr: int) {
    1 <= attr <= MaxAttr(bdr) && attr in bdr
  }

  /** Mesh attributes are positive, so an attribute is accepted iff it is
      positive and appears on the mesh. */
  lemma ValidIff(bdr: seq<int>, attr: int)
    requires forall i :: 0 <= i < |bdr| ==> bdr[i] >= 1
    ensures Valid(bdr, attr) <==> attr >= 1 && attr in bdr
  {
    if attr in bdr {
      var i :| 0 <= i < |bdr| && bdr[i] == attr;
      assert attr <= MaxAttr(bdr);
    }
  }

  /** The accepted attributes of xs, in order and with repetitions. */
  function Filter(bdr: seq<int>, xs: seq<int>): (r: seq<int>)
    decreases |xs|
  {
    if |xs| == 0 then []
    else Filter(bdr, xs[..|xs| - 1]) + (if Valid(bdr, xs[|xs| - 1]) then [xs[|xs| - 1]] else [])
  }

  /** The rejected attributes of xs. */
  function Invalid(bdr: seq<int>, xs: seq<int>): set<int> {
    set a | a in xs && !Valid(bdr, a)
  }

  /** periodic_bcs: per entry in order, its accepted donors, then its accepted receivers. */
  function Selected(bdr: seq<int>, periodic: seq<PeriodicData>): seq<int>
    decreases |periodic|
  {
    if |periodic| == 0 then []
    else
      var d := periodic[|periodic| - 1];
      Selected(bdr, periodic[..|periodic| - 1]) + Filter(bdr, d.donor) + Filter(bdr, d.receiver)
  }

  /** bdr_warn_list. */
  function Rejected(bdr: seq<int>, periodic: seq<PeriodicData>): set<int>
    decreases |periodic|
  {
    if |periodic| == 0 then {}
    else
      var d := periodic[|periodic| - 1];
      Rejected(bdr, periodic[..|periodic| - 1]) + Invalid(bdr, d.donor) + Invalid(bdr, d.receiver)
  }

  /** Every attribute named by the entries, donors before receivers, entry by entry. */
  function AllAttributes(periodic: seq<PeriodicData>): seq<int>
    decreases |periodic|
  {
    if |periodic| == 0 then []
    else
      var d := periodic[|periodic| - 1];
      AllAttributes(periodic[..|periodic| - 1]) + d.donor + d.receiver
  }

  // ---- what the selection means ----

  lemma {:induction false} FilterMembers(bdr: seq<int>, xs: seq<int>, a: int)
    ensures a in Filter(bdr, xs) <==> a in xs && Valid(bdr, a)
    decreases |xs|
  {
    if |xs| > 0 {
      var k := |xs| - 1;
      FilterMembers(bdr, xs[..k], a);
      assert xs == xs[..k] + [xs[k]];
    }
  }

  /** Filtering a concatenation filters each part, so order is kept. */
  lemma {:induction false} FilterConcat(bdr: seq<int>, xs: seq<int>, ys: seq<int>)
    ensures Filter(bdr, xs + ys) == Filter(bdr, xs) + Filter(bdr, ys)
    decreases |ys|
  {
    if |ys| == 0 {
      assert xs + ys == xs;
    } else {
      var k := |ys| - 1;
      assert (xs + ys)[..|xs + ys| - 1] == xs + ys[..k];
      FilterConcat(bdr, xs, ys[..k]);
    }
  }

  /** A list of accepted attributes passes unchanged, duplicates included. */
  lemma {:induction false} FilterAllValid(bdr: seq<int>, xs: seq<int>)
    requires forall i :: 0 <= i < |xs| ==> Valid(bdr, xs[i])
    ensures Filter(bdr, xs) == xs
    decreases |xs|
  {
    if |xs| > 0 {
      var k := |xs| - 1;
      FilterAllValid(bdr, xs[..k]);
      assert xs == xs[..k] + [xs[k]];
    }
  }

  /** The output is the accepted attributes of all entries, in order. */
  lemma {:induction false} SelectedIsFilter(bdr: seq<int>, periodic: seq<PeriodicData>)
    ensures Selected(bdr, periodic) == Filter(bdr, AllAttributes(periodic))
    decreases |periodic|
  {
    if |periodic| > 0 {
      var k := |periodic| - 1;
      var d := periodic[k];
      SelectedIsFilter(bdr, periodic[..k]);
      FilterConcat(bdr, AllAttributes(periodic[..k]), d.donor);
      FilterConcat(bdr, AllAttributes(periodic[..k]) + d.donor, d.receiver);
    }
  }

  /** When every named attribute is accepted, the output lists them all, in
      configuration order and with duplicates. */
  lemma AllValidSelected(bdr: seq<int>, periodic: seq<PeriodicData>)
    requires forall i :: 0 <= i < |AllAttributes(periodic)| ==> Valid(bdr, AllAttributes(periodic)[i])
    ensures Selected(bdr, periodic) == AllAttributes(periodic)
  {
    SelectedIsFilter(bdr, periodic);
    FilterAllValid(bdr, AllAttributes(periodic));
  }

  /** Some entry names a, as a donor or as a receiver. */
  predicate Named(periodic: seq<PeriodicData>, a: int) {
    exists i :: 0 <= i < |periodic| && (a in periodic[i].donor || a in periodic[i].receiver)
  }

  lemma NamedSnoc(periodic: seq<PeriodicData>, a: int)
    requires |periodic| > 0
    ensures Named(periodic, a) <==>
      Named(periodic[..|periodic| - 1], a) || a in periodic[|periodic| - 1].donor || a in periodic[|periodic| - 1].receiver
  {
    var k := |periodic| - 1;
    if Named(periodic, a) {
      var i :| 0 <= i < |periodic| && (a in periodic[i].donor || a in periodic[i].receiver);
      if i < k {
        assert periodic[..k][i] == periodic[i];
      }
    }
    if Named(periodic[..k], a) {
      var i :| 0 <= i < k && (a in periodic[..k][i].donor || a in periodic[..k][i].receiver);
      assert periodic[i] == periodic[..k][i];
    }
  }

  lemma {:induction false} AllAttributesMembers(periodic: seq<PeriodicData>, a: int)
    ensures a in AllAttributes(periodic) <==> Named(periodic, a)
    decreases |periodic|
  {
    if |periodic| > 0 {
      var k := |periodic| - 1;
      AllAttributesMembers(periodic[..k], a);
      NamedSnoc(periodic, a);
    }
  }

  lemma {:induction false} RejectedMembers(bdr: seq<int>, periodic: seq<PeriodicData>, a: int)
    ensures a in Rejected(bdr, periodic) <==> a in AllAttributes(periodic) && !Valid(bdr, a)
    decreases |periodic|
  {
    if |periodic| > 0 {
      RejectedMembers(bdr, periodic[..|periodic| - 1], a);
    }
  }

  /** An attribute is output iff it is named by some entry and accepted; a
      warned attribute is never output, and every named attribute is one or
      the other. */
  lemma SelectedOrWarned(bdr: seq<int>, periodic: seq<PeriodicData>, a: int)
    ensures a in Selected(bdr, periodic) <==> Valid(bdr, a) && Named(periodic, a)
    ensures a in Rejected(bdr, periodic) ==> a !in Selected(bdr, periodic)
    ensures a in AllAttributes(periodic) ==> (a in Selected(bdr, periodic) <==> a !in Rejected(bdr, periodic))
  {
    SelectedIsFilter(bdr, periodic);
    FilterMembers(bdr, AllAttributes(periodic), a);
    AllAttributesMembers(periodic, a);
    RejectedMembers(bdr, periodic, a);
  }

  // ---- SetUpBoundaryProperties ----

  /** bdr_attr_marker: entry attr - 1 is set iff attr is a mesh boundary attribute. */
  method MarkAttributes(bdr: seq<int>, max: int) returns (marker: array<bool>)
    requires max >= 0 && forall i :: 0 <= i < |bdr| ==> 1 <= bdr[i] <= max
    ensures marker.Length == max
    ensures forall a :: 1 <= a <= max ==> (marker[a - 1] <==> a in bdr)
  {
    marker := new bool[max](_ => false);
    var j := 0;
    while j < |bdr|
      invariant 0 <= j <= |bdr| && marker.Length == max
      invariant forall a :: 1 <= a <= max ==> (marker[a - 1] <==> a in bdr[..j])
    {
      marker[bdr[j] - 1] := true;
      assert bdr[..j + 1] == bdr[..j] + [bdr[j]];
      j := j + 1;
    }
    assert bdr[..j] == bdr;
  }

  predicate Marks(marker: array<bool>, bdr: seq<int>)
    reads marker
  {
    marker.Length == MaxAttr(bdr) && forall a :: 1 <= a <= MaxAttr(bdr) ==> (marker[a - 1] <==> a in bdr)
  }

  /** The source's acceptance test on the marker array. */
  method Accept(marker: array<bool>, max: int, attr: int, ghost bdr: seq<int>) returns (ok: bool)
    requires max == MaxAttr(bdr) && Marks(marker, bdr)
    ensures ok == Valid(bdr, attr)
  {
    ok := !(attr <= 0 || attr > max || !marker[attr - 1]);
  }

  /** One warning loop: every rejected attribute of xs joins the warning set. */
  method WarnRejected(marker: array<bool>, max: int, xs: seq<int>, warn: set<int>, ghost bdr: seq<int>)
    returns (warned: set<int>)
    requires max == MaxAttr(bdr) && Marks(marker, bdr)
    ensures warned == warn + Invalid(bdr, xs)
  {
    warned := warn;
    var i := 0;
    while i < |xs|
      invariant 0 <= i <= |xs|
      invariant warned == warn + Invalid(bdr, xs[..i])
    {
      var ok := Accept(marker, max, xs[i], bdr);
      if !ok {
        warned := warned + {xs[i]};
      }
      assert xs[..i + 1] == xs[..i] + [xs[i]];
      assert Invalid(bdr, xs[..i + 1]) == Invalid(bdr, xs[..i]) + (if ok then {} else {xs[i]});
      i := i + 1;
    }
    assert xs[..i] == xs;
  }

  /** One output loop: every accepted attribute of xs is appended, in order. */
  method AppendAccepted(marker: array<bool>, max: int, xs: seq<int>, bcs: seq<int>, ghost bdr: seq<int>)
    returns (appended: seq<int>)
    requires max == MaxAttr(bdr) && Marks(marker, bdr)
    ensures appended == bcs + Filter(bdr, xs)
  {
    appended := bcs;
    var i := 0;
    while i < |xs|
      invariant 0 <= i <= |xs|
      invariant appended == bcs + Filter(bdr, xs[..i])
    {
      var ok := Accept(marker, max, xs[i], bdr);
      if ok {
        appended := appended + [xs[i]];
      }
      assert xs[..i + 1][..i] == xs[..i];
      i := i + 1;
    }
    assert xs[..i] == xs;
  }

  /** SetUpBoundaryProperties: the accepted periodic attributes, and the
      warning set of the rejected ones. */
  method SetUpBoundaryProperties(bdr: seq<int>, periodic: seq<PeriodicData>)
    returns (bcs: seq<int>, warn: set<int>)
    requires forall i :: 0 <= i < |bdr| ==> bdr[i] >= 1
    ensures bcs == Selected(bdr, periodic)
    ensures warn == Rejected(bdr, periodic)
    ensures |periodic| == 0 ==> bcs == [] && warn == {}
  {
    var max := MaxAttr(bdr);
    var marker := new bool[0];
    warn := {};
    if |periodic| != 0 {
      marker := MarkAttributes(bdr, max);
      var p := 0;
      while p < |periodic|
        invariant 0 <= p <= |periodic| && Marks(marker, bdr)
        invariant warn == Rejected(bdr, periodic[..p])
      {
        warn := WarnRejected(marker, max, periodic[p].donor, warn, bdr);
        warn := WarnRejected(marker, max, periodic[p].receiver, warn, bdr);
        assert periodic[..p + 1][..p] == periodic[..p];
        p := p + 1;
      }
      assert periodic[..p] == periodic;
    }
    bcs := [];
    var p := 0;
    while p < |periodic|
      invariant 0 <= p <= |periodic| && (|periodic| != 0 ==> Marks(marker, bdr))
      invariant bcs == Selected(bdr, periodic[..p])
    {
      bcs := AppendAccepted(marker, max, periodic[p].donor, bcs, bdr);
      bcs := AppendAccepted(marker, max, periodic[p].receiver, bcs, bdr);
      assert periodic[..p + 1][..p] == periodic[..p];
      p := p + 1;
    }
    assert periodic[..p] == periodic;
  }

  // ---- sorting periodic_attr ----

  predicate Sorted(s: seq<int>) {
    forall i, j :: 0 <= i < j < |s| ==> s[i] <= s[j]
  }

  function InsertSorted(x: int, s: seq<int>): (r: seq<int>)
    requires Sorted(s)
    ensures Sorted(r) && multiset(r) == multiset(s) + multiset{x}
    decreases |s|
  {
    if |s| == 0 then [x]
    else if x <= s[0] then [x] + s
    else
      var t := InsertSorted(x, s[1..]);
      InsertBehindHead(x, s, t);
      [s[0]] + t
  }

  /** Putting the head of s back in front of x inserted into the rest of s. */
  lemma InsertBehindHead(x: int, s: seq<int>, t: seq<int>)
    requires Sorted(s) && |s| > 0 && s[0] < x
    requires Sorted(t) && multiset(t) == multiset(s[1..]) + multiset{x}
    ensures Sorted([s[0]] + t) && multiset([s[0]] + t) == multiset(s) + multiset{x}
  {
    assert s == [s[0]] + s[1..];
    forall y | y in multiset(t) ensures s[0] <= y {
      assert y == x || y in multiset(s[1..]);
      if y != x {
        assert y in s[1..];
      }
    }
    assert forall i :: 0 <= i < |t| ==> t[i] in multiset(t);
  }

  /** std::sort(periodic_attr.begin(), periodic_attr.end()): an ordered
      permutation of the attributes. */
  function Sort(s: seq<int>): (r: seq<int>)
    ensures Sorted(r) && multiset(r) == multiset(s)
    decreases |s|
  {
    if |s| == 0 then []
    else
      assert s == s[..|s| - 1] + [s[|s| - 1]];
      InsertSorted(s[|s| - 1], Sort(s[..|s| - 1]))
  }

  // ---- the wave vector ----

  /** wave_vector_cross for the wave vector k. */
  function CrossMatrix(k: seq<real>): (m: seq<seq<real>>)
    requires |k| == 3
    ensures |m| == 3 && forall i :: 0 <= i < 3 ==> |m[i]| == 3
  {
    [[0.0, -k[2], k[1]],
     [k[2], 0.0, -k[0]],
     [-k[1], k[0], 0.0]]
  }

  /** The cross product k x v. */
  function Cross(k: seq<real>, v: seq<real>): (r: seq<real>)
    requires |k| == 3 && |v| == 3
    ensures |r| == 3
  {
    [k[1] * v[2] - k[2] * v[1], k[2] * v[0] - k[0] * v[2], k[0] * v[1] - k[1] * v[0]]
  }

  /** Matrix times vector, row by row. */
  function MatVec(m: seq<seq<real>>, v: seq<real>): (r: seq<real>)
    ensures |r| == |m|
  {
    seq(|m|, i requires 0 <= i < |m| => RealVectors.Dot(m[i], v))
  }

  lemma DotOfThree(a: seq<real>, v: seq<real>)
    requires |a| == 3 && |v| == 3
    ensures RealVectors.Dot(a, v) == a[0] * v[0] + a[1] * v[1] + a[2] * v[2]
  {
    var a2, a1 := a[..2], a[..1];
    assert a2[..1] == a1 && a1[..0] == [];
    assert RealVectors.Dot(a1, v) == a[0] * v[0];
    assert RealVectors.Dot(a2, v) == RealVectors.Dot(a1, v) + a[1] * v[1];
    assert a[..2] == a2;
  }

  /** [k x] has a zero diagonal and is skew-symmetric. */
  lemma CrossMatrixSkew(k: seq<real>)
    requires |k| == 3
    ensures forall i :: 0 <= i < 3 ==> CrossMatrix(k)[i][i] == 0.0
    ensures forall i, j :: 0 <= i < 3 && 0 <= j < 3 ==> CrossMatrix(k)[i][j] == -CrossMatrix(k)[j][i]
  {
  }

  /** [k x] v = k x v. */
  lemma CrossMatrixMult(k: seq<real>, v: seq<real>)
    requires |k| == 3 && |v| == 3
    ensures MatVec(CrossMatrix(k), v) == Cross(k, v)
  {
    var m := CrossMatrix(k);
    DotOfThree(m[0], v);
    DotOfThree(m[1], v);
    DotOfThree(m[2], v);
    assert (-k[2]) * v[1] == -(k[2] * v[1]) && 0.0 * v[0] == 0.0;
    assert (-k[0]) * v[2] == -(k[0] * v[2]) && 0.0 * v[1] == 0.0;
    assert (-k[1]) * v[0] == -(k[1] * v[0]) && 0.0 * v[2] == 0.0;
    assert MatVec(m, v)[0] == Cross(k, v)[0];
    assert MatVec(m, v)[1] == Cross(k, v)[1];
    assert MatVec(m, v)[2] == Cross(k, v)[2];
  }

  /** Machine epsilon of double, std::numeric_limits<double>::epsilon(). */
  const Epsilon: real := 1.0 / 4503599627370496.0

  /** wave_vector.Norml2() > epsilon, compared squared. */
  predicate NonZero(k: seq<real>) {
    RealVectors.Dot(k, k) > Epsilon * Epsilon
  }

  /** The fatal checks of the constructor, in order. */
  function ConstructorChecks(waveVector: seq<real>, spaceDim: int, problem: ProblemType): (s: Status)
    ensures s == Done <==>
      |waveVector| == spaceDim && spaceDim == 3 && (!NonZero(waveVector) || problem in {Driven, Eigenmode})
    ensures |waveVector| != spaceDim ==> s == Failed(WaveVectorSize)
    ensures |waveVector| == spaceDim != 3 ==> s == Failed(NotThreeDimensional)
  {
    if |waveVector| != spaceDim then Failed(WaveVectorSize)
    else if spaceDim != 3 then Failed(NotThreeDimensional)
    else if NonZero(waveVector) && problem != Driven && problem != Eigenmode then Failed(WrongProblemType)
    else Done
  }

  /** A term the coefficient adders contribute: kind, scale and [k x]. */
  datatype CoefficientKind = CrossTransposeInvMuCross | InvMuCross | CrossTransposeInvMu
  datatype CoefficientTerm = CoefficientTerm(kind: CoefficientKind, coeff: real, cross: seq<seq<real>>)

  class PeriodicBoundaryOperator {
    var periodicAttr: seq<int>
    var waveVector: seq<real>
    var nonZeroWaveVector: bool
    var waveVectorCross: array2<real>

    /** The state after the checks passed. The wave vector folded into
        [-pi/L, pi/L] is an input: the bounding box and fmod are not modelled. */
    constructor(attrs: seq<int>, rawWaveVector: seq<real>, foldedWaveVector: seq<real>)
      requires |foldedWaveVector| == 3
      ensures periodicAttr == Sort(attrs) && waveVector == foldedWaveVector
      ensures nonZeroWaveVector == NonZero(rawWaveVector)
      ensures waveVectorCross.Length0 == 3 && waveVectorCross.Length1 == 3
      ensures forall i, j :: 0 <= i < 3 && 0 <= j < 3 ==>
        waveVectorCross[i, j] == CrossMatrix(foldedWaveVector)[i][j]
    {
      periodicAttr := Sort(attrs);
      waveVector := foldedWaveVector;
      nonZeroWaveVector := NonZero(rawWaveVector);
      var m := BuildCross(foldedWaveVector);
      waveVectorCross := m;
    }

    /** wave_vector_cross, assigned entry by entry. */
    static method BuildCross(k: seq<real>) returns (m: array2<real>)
      requires |k| == 3
      ensures fresh(m) && m.Length0 == 3 && m.Length1 == 3
      ensures forall i, j :: 0 <= i < 3 && 0 <= j < 3 ==> m[i, j] == CrossMatrix(k)[i][j]
    {
      m := new real[3, 3];
      m[0, 0], m[0, 1], m[0, 2] := 0.0, -k[2], k[1];
      m[1, 0], m[1, 1], m[1, 2] := k[2], 0.0, -k[0];
      m[2, 0], m[2, 1], m[2, 2] := -k[1], k[0], 0.0;
    }

    /** AddRealMassCoefficients: adds [k x]^T mu^-1 [k x] only for a nonzero wave vector. */
    function AddRealMassCoefficients(coeff: real, f: seq<CoefficientTerm>): (r: seq<CoefficientTerm>)
      reads this
      requires |waveVector| == 3
      ensures !nonZeroWaveVector ==> r == f
      ensures nonZeroWaveVector ==> r == f + [CoefficientTerm(CrossTransposeInvMuCross, coeff, CrossMatrix(waveVector))]
    {
      if nonZeroWaveVector then f + [CoefficientTerm(CrossTransposeInvMuCross, coeff, CrossMatrix(waveVector))] else f
    }

    /** AddWeakCurlCoefficients: adds mu^-1 [k x] only for a nonzero wave vector. */
    function AddWeakCurlCoefficients(coeff: real, f: seq<CoefficientTerm>): (r: seq<CoefficientTerm>)
      reads this
      requires |waveVector| == 3
      ensures !nonZeroWaveVector ==> r == f
      ensures nonZeroWaveVector ==> r == f + [CoefficientTerm(InvMuCross, coeff, CrossMatrix(waveVector))]
    {
      if nonZeroWaveVector then f + [CoefficientTerm(InvMuCross, coeff, CrossMatrix(waveVector))] else f
    }

    /** AddCurlCoefficients: adds [k x]^T mu^-1 only for a nonzero wave vector. */
    function AddCurlCoefficients(coeff: real, f: seq<CoefficientTerm>): (r: seq<CoefficientTerm>)
      reads this
      requires |waveVector| == 3
      ensures !nonZeroWaveVector ==> r == f
      ensures nonZeroWaveVector ==> r == f + [CoefficientTerm(CrossTransposeInvMu, coeff, CrossMatrix(waveVector))]
    {
      if nonZeroWaveVector then f + [CoefficientTerm(CrossTransposeInvMu, coeff, CrossMatrix(waveVector))] else f
    }
  }

  /** The constructor: periodic_attr from SetUpBoundaryProperties, sorted, then
      the fatal checks on the wave vector, then [k x]. */
  method Create(bdr: seq<int>, periodic: seq<PeriodicData>, waveVector: seq<real>, spaceDim: int,
                problem: ProblemType, foldedWaveVector: seq<real>)
    returns (r: Result<PeriodicBoundaryOperator>)
    requires forall i :: 0 <= i < |bdr| ==> bdr[i] >= 1
    requires |foldedWaveVector| == |waveVector|
    ensures r.Err? <==> ConstructorChecks(waveVector, spaceDim, problem) != Done
    ensures r.Err? ==> ConstructorChecks(waveVector, spaceDim, problem) == Failed(r.error)
    ensures r.Ok? ==> fresh(r.value)
    ensures r.Ok? ==> r.value.periodicAttr == Sort(Selected(bdr, periodic))
    ensures r.Ok? ==> r.value.nonZeroWaveVector == NonZero(waveVector) && r.value.waveVector == foldedWaveVector
    ensures r.Ok? ==> |foldedWaveVector| == 3 && r.value.waveVectorCross.Length0 == 3 && r.value.waveVectorCross.Length1 == 3
    ensures r.Ok? ==> forall i, j :: 0 <= i < 3 && 0 <= j < 3 ==>
      r.value.waveVectorCross[i, j] == CrossMatrix(foldedWaveVector)[i][j]
  {
    var attrs, _ := SetUpBoundaryProperties(bdr, periodic);
    var status := ConstructorChecks(waveVector, spaceDim, problem);
    if status.Failed? {
      return Err(status.error);
    }
    var op := new PeriodicBoundaryOperator(attrs, waveVector, foldedWaveVector);
    r := Ok(op);
  }
}
