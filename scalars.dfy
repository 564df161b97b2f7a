/** Complex scalars (std::complex<double>) modelled as pairs of reals, and the
    fatal-error outcome that MFEM_VERIFY failures are turned into. */
module Scalars {

  datatype Complex = Complex(re: real, im: real)

  const Zero: Complex := Complex(0.0, 0.0)

  function Add(a: Complex, b: Complex): Complex {
    Complex(a.re + b.re, a.im + b.im)
  }

  function Mul(a: Complex, b: Complex): Complex {
    Complex(a.re * b.re - a.im * b.im, a.re * b.im + a.im * b.re)
  }

  /** i * w for a real w, as in `1i * omega`. */
  function ITimes(w: real): Complex {
    Complex(0.0, w)
  }

  /** A real scalar as a complex number. */
  function OfReal(x: real): Complex {
    Complex(x, 0.0)
  }

  /** The error kinds of the core's fatal checks (MFEM_VERIFY), one per message. */
  datatype Fatal =
    | EmptyHdmMatrices       // the stiffness or the mass matrix is missing
    | EmptyBasisStorage      // the basis storage would have no column
    | BasisStorageFull       // no room left for another basis vector or snapshot
    | InvalidProjectionDims  // a projection that adds no row (n0 >= n)
    | ZeroOperator           // a projected operator with neither a real nor an imaginary part
    | NullExtraMatrix        // A2 reported present but the collaborator returned none
    | NoMaxError             // the error scan found no positive grid point
    | BlockSizeMismatch      // block sizes of SetBlocks do not match the vector's size
    | WaveVectorSize         // the wave vector's length differs from the space dimension
    | NotThreeDimensional    // Floquet boundaries outside three dimensions
    | WrongProblemType       // a nonzero wave vector for a problem that is neither driven nor eigenmode

  datatype Option<T> = None | Some(value: T)

  datatype Result<T> = Ok(value: T) | Err(error: Fatal)

  datatype Status = Done | Failed(error: Fatal)
}
