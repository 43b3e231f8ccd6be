/** The numeric library the code calls but which is not modelled: square root,
    exponential, natural logarithm and the body of the cubic solver
    (solve_cubic.go). They are fields of a value handed to every operation that
    needs them; `Valid` lists the only facts the proofs rely on. */
module Numerics {
  import opened Errors

  /** A complex number as its (real, imaginary) parts. */
  datatype Complex = Complex(re: real, im: real)

  /** The three roots returned by the cubic solver. */
  type Roots = s: seq<Complex> | |s| == 3 witness [Complex(0.0, 0.0), Complex(0.0, 0.0), Complex(0.0, 0.0)]

  datatype Lib = Lib(
    sqrt: real -> real,
    exp: real -> real,
    log: real -> real,
    cubicRoots: (real, real, real, real) -> Roots)
  {
    /** What the proofs assume of the numeric library. */
    ghost predicate Valid() {
      && (forall x :: x > 0.0 ==> sqrt(x) > 0.0)
      && (forall x :: x >= 0.0 ==> sqrt(x) * sqrt(x) == x)
      && (forall x :: exp(x) > 0.0)
      && (forall x :: log(exp(x)) == x)
    }
  }

  /** SolveCubic(a, b, c, d): the roots of a*x^3 + b*x^2 + c*x + d = 0.
      Only the guard against a non-cubic equation is modelled; the roots
      themselves come from the library. */
  function SolveCubic(lib: Lib, a: real, b: real, c: real, d: real): (r: Result<Roots>)
    ensures r.Err? <==> a == 0.0
    ensures r.Err? ==> r.error == NotCubic
    ensures r.Ok? ==> r.value == lib.cubicRoots(a, b, c, d)
  {
    if a == 0.0 then Err(NotCubic) else Ok(lib.cubicRoots(a, b, c, d))
  }
}
