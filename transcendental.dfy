/** The elementary functions and the matrix inverse that the filters call in the
    C++ and Eigen libraries. Exact reals have no counterpart for them, so a model
    receives them as a `Library` value. Its proofs rely only on the few laws that
    `Lawful` collects. */
module Transcendental {
  import opened LinAlg

  datatype Library = Library(
    sin: real -> real,
    cos: real -> real,
    exp: real -> real,
    sqrt: real -> real,
    atan2: (real, real) -> real,
    inverse: Matrix -> Matrix)

  // Every use goes through these, so that each evaluation is one term.

  function Sin(lib: Library, a: real): real { lib.sin(a) }
  function Cos(lib: Library, a: real): real { lib.cos(a) }
  function Exp(lib: Library, a: real): real { lib.exp(a) }
  function Sqrt(lib: Library, a: real): real { lib.sqrt(a) }
  function Atan2(lib: Library, y: real, x: real): real { lib.atan2(y, x) }
  function Inverse(lib: Library, m: Matrix): Matrix { lib.inverse(m) }

  /** The laws the proofs need: exp is positive, sin² + cos² = 1, the square
      root of a nonnegative number is its nonnegative root (and that of 0 is
      0), and the inverse of an n-row matrix is n × n. */
  ghost predicate Lawful(lib: Library)
  {
    (forall y :: Exp(lib, y) > 0.0) &&
    (forall a :: Sin(lib, a) * Sin(lib, a) + Cos(lib, a) * Cos(lib, a) == 1.0) &&
    (forall a | a >= 0.0 :: Sqrt(lib, a) >= 0.0 && Sqrt(lib, a) * Sqrt(lib, a) == a) &&
    Sqrt(lib, 0.0) == 0.0 &&
    (forall m: Matrix {:trigger Inverse(lib, m)} :: IsMatrix(Inverse(lib, m), |m|, |m|))
  }

  /** The square root law, for one argument. */
  lemma SqrtLaw(lib: Library, a: real)
    requires Lawful(lib) && a >= 0.0
    ensures Sqrt(lib, a) >= 0.0 && Sqrt(lib, a) * Sqrt(lib, a) == a
    ensures a == 0.0 ==> Sqrt(lib, a) == 0.0
  {
  }
}
