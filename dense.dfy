/** The small dense complex matrices (Eigen::MatrixXcd) and vectors
    (Eigen::VectorXcd) of the reduced-order model. They are values: a matrix is
    the sequence of its rows. A projection fills one in place, so it is handed over
    as an array; conservativeResize keeps the leading block, and the entries Eigen
    leaves uninitialized after a resize are 0 here. */
module Dense {
  import opened Scalars

  /** An n x n matrix given by its rows. */
  predicate SquareRows(a: seq<seq<Complex>>, n: nat) {
    |a| == n && forall i :: 0 <= i < n ==> |a[i]| == n
  }

  /** The n x n zero matrix (setZero, or resize before the entries are written). */
  function ZeroMatrix(n: nat): (a: seq<seq<Complex>>)
    ensures SquareRows(a, n) && forall i, j :: 0 <= i < n && 0 <= j < n ==> a[i][j] == Zero
  {
    seq(n, _ => seq(n, _ => Zero))
  }

  /** The zero vector of n entries. */
  function ZeroVector(n: nat): (b: seq<Complex>)
    ensures |b| == n && forall i :: 0 <= i < n ==> b[i] == Zero
  {
    seq(n, _ => Zero)
  }

  /** The entries of an array, row by row. */
  function Rows(m: array2<Complex>): (r: seq<seq<Complex>>)
    reads m
    ensures |r| == m.Length0
    ensures forall i :: 0 <= i < m.Length0 ==> |r[i]| == m.Length1 && forall j :: 0 <= j < m.Length1 ==> r[i][j] == m[i, j]
  {
    seq(m.Length0, i requires 0 <= i < m.Length0 reads m => seq(m.Length1, j requires 0 <= j < m.Length1 reads m => m[i, j]))
  }

  /** conservativeResize(n, n) of a square matrix, as an array the projection can
      fill: the leading block that fits is kept, every other entry is 0. */
  method ResizedMatrix(a: seq<seq<Complex>>, n: nat) returns (m: array2<Complex>)
    requires SquareRows(a, |a|)
    ensures fresh(m) && m.Length0 == n && m.Length1 == n
    ensures forall i, j :: 0 <= i < n && 0 <= j < n ==>
      m[i, j] == if i < |a| && j < |a| then a[i][j] else Zero
  {
    m := new Complex[n, n]((i, j) => if 0 <= i < |a| && 0 <= j < |a| then a[i][j] else Zero);
  }

  /** conservativeResize(n) of a vector, as an array the projection can fill: the
      leading entries that fit are kept, the others are 0. */
  method ResizedVector(a: seq<Complex>, n: nat) returns (m: array<Complex>)
    ensures fresh(m) && m.Length == n
    ensures forall i :: 0 <= i < n ==> m[i] == if i < |a| then a[i] else Zero
  {
    m := new Complex[n](i => if 0 <= i < |a| then a[i] else Zero);
  }
}
