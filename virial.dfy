/** The virial equation of state truncated after two or three terms
    (virial/virial.go): ordered input checks, the explicit two-term volume and
    compressibility, and the cubic the three-term form hands to the solver. */
module Virial {
  import opened Errors
  import opened Numerics
  import Cubic

  /** The two-term form is limited to moderate pressures (bar). */
  const TwoTermMaxPressure: real := 15.0

  /** The checks both two-term operations make, in their order. */
  function TwoTermInputError(T: real, P: real, R: real, B: real): (e: Option<Error>)
    ensures e.None? <==> 0.0 < P <= TwoTermMaxPressure && T > 0.0 && R > 0.0 && B != 0.0
  {
    if P <= 0.0 then Some(ErrPressure)
    else if P > TwoTermMaxPressure then Some(ErrHighPressureTwoTerm)
    else if T <= 0.0 then Some(ErrTemp)
    else if R <= 0.0 then Some(ErrUniversalConst)
    else if B == 0.0 then Some(ErrVirialCoeff)
    else None
  }

  /** SolveForVolumeTwoTerm: V = RT/P + B, after the checks on P, the pressure
      limit, T, R and B, in that order. */
  function SolveForVolumeTwoTerm(T: real, P: real, R: real, B: real): (r: Result<real>)
    ensures P <= 0.0 ==> r == Err(ErrPressure)
    ensures P > TwoTermMaxPressure ==> r == Err(ErrHighPressureTwoTerm)
    ensures 0.0 < P <= TwoTermMaxPressure && T <= 0.0 ==> r == Err(ErrTemp)
    ensures 0.0 < P <= TwoTermMaxPressure && T > 0.0 && R <= 0.0 ==> r == Err(ErrUniversalConst)
    ensures 0.0 < P <= TwoTermMaxPressure && T > 0.0 && R > 0.0 && B == 0.0 ==> r == Err(ErrVirialCoeff)
    ensures r.Ok? <==> TwoTermInputError(T, P, R, B).None?
    ensures r.Ok? ==> (r.value - B) * P == R * T
  {
    match TwoTermInputError(T, P, R, B)
    case Some(e) => Err(e)
    case None => Ok(R * T / P + B)
  }

  /** CompressibilityTwoTerm: Z = 1 + BP/(RT), after the same checks. */
  function CompressibilityTwoTerm(T: real, P: real, R: real, B: real): (r: Result<real>)
    ensures r.Err? <==> TwoTermInputError(T, P, R, B).Some?
    ensures r.Err? ==> r.error == TwoTermInputError(T, P, R, B).value
    ensures r.Ok? ==> (r.value - 1.0) * (R * T) == B * P
  {
    match TwoTermInputError(T, P, R, B)
    case Some(e) => Err(e)
    case None => Ok(1.0 + (B * P) / (R * T))
  }

  /** The two results agree: P V / (R T) of the two-term volume is the two-term Z. */
  lemma TwoTermConsistent(T: real, P: real, R: real, B: real)
    requires TwoTermInputError(T, P, R, B).None?
    ensures SolveForVolumeTwoTerm(T, P, R, B).Ok? && CompressibilityTwoTerm(T, P, R, B).Ok?
    ensures P * SolveForVolumeTwoTerm(T, P, R, B).value / (R * T) == CompressibilityTwoTerm(T, P, R, B).value
  {
    var V := SolveForVolumeTwoTerm(T, P, R, B).value;
    var Z := CompressibilityTwoTerm(T, P, R, B).value;
    var RT := R * T;
    assert V * P == RT + B * P;
    assert Z * RT == RT + B * P;
    DivideOut(P * V, Z, RT);
  }

  lemma DivideOut(x: real, z: real, d: real)
    requires d != 0.0 && x == z * d
    ensures x / d == z
  {
  }

  /** Isopropanol vapour at 473.15 K and 10 bar with R = 83.14 and B = -338:
      V = 3595.7691 exactly and Z = 0.9141 to four decimals. */
  lemma IsopropanolTwoTerm()
    ensures SolveForVolumeTwoTerm(473.15, 10.0, 83.14, -338.0) == Ok(3595.7691)
    ensures var z := CompressibilityTwoTerm(473.15, 10.0, 83.14, -338.0);
      z.Ok? && 0.91405 < z.value < 0.91415
  {
    var z := CompressibilityTwoTerm(473.15, 10.0, 83.14, -338.0).value;
    assert (z - 1.0) * 39337.691 == -3380.0;
  }

  /** The checks of the three-term solver, in its order. */
  function ThreeTermInputError(T: real, P: real, R: real, B: real, C: real): (e: Option<Error>)
    ensures e.None? <==> P > 0.0 && T > 0.0 && R > 0.0 && B != 0.0 && C != 0.0
  {
    if P <= 0.0 then Some(ErrPressure)
    else if T <= 0.0 then Some(ErrTemp)
    else if R <= 0.0 then Some(ErrUniversalConst)
    else if B == 0.0 || C == 0.0 then Some(ErrVirialCoeff)
    else None
  }

  /** SolveForVolumeThreeTerm: after the checks on P, T, R and (B, C), the
      roots of (P/RT) V³ - V² - B V - C = 0 from the cubic solver. */
  function SolveForVolumeThreeTerm(T: real, P: real, R: real, B: real, C: real, lib: Lib): (r: Result<Roots>)
    ensures P <= 0.0 ==> r == Err(ErrPressure)
    ensures P > 0.0 && T <= 0.0 ==> r == Err(ErrTemp)
    ensures P > 0.0 && T > 0.0 && R <= 0.0 ==> r == Err(ErrUniversalConst)
    ensures P > 0.0 && T > 0.0 && R > 0.0 && (B == 0.0 || C == 0.0) ==> r == Err(ErrVirialCoeff)
    ensures r.Ok? <==> ThreeTermInputError(T, P, R, B, C).None?
    ensures r.Ok? ==> r.value == lib.cubicRoots(P / (R * T), -1.0, -B, -C)
  {
    match ThreeTermInputError(T, P, R, B, C)
    case Some(e) => Err(e)
    case None =>
      var a := P / (R * T);
      SolveCubic(lib, a, -1.0, -B, -C)
  }

  /** CompressibilityThreeTerm: Z = 1 + B/V + C/V², after rejecting V <= 0 and
      then a zero coefficient. */
  function CompressibilityThreeTerm(V: real, B: real, C: real): (r: Result<real>)
    ensures V <= 0.0 ==> r == Err(ErrVolume)
    ensures V > 0.0 && (B == 0.0 || C == 0.0) ==> r == Err(ErrVirialCoeff)
    ensures r.Ok? <==> V > 0.0 && B != 0.0 && C != 0.0
    ensures r.Ok? ==> r.value * V * V == V * V + B * V + C
  {
    if V <= 0.0 then Err(ErrVolume)
    else if B == 0.0 || C == 0.0 then Err(ErrVirialCoeff)
    else
      ScaleThreeTerm(V, B, C);
      Ok(1.0 + B / V + C / (V * V))
  }

  lemma ScaleThreeTerm(V: real, B: real, C: real)
    requires V != 0.0
    ensures (1.0 + B / V + C / (V * V)) * V * V == V * V + B * V + C
  {
    assert (B / V) * V == B;
    assert (C / (V * V)) * (V * V) == C;
  }

  /** A positive volume is a root of the three-term cubic exactly when the
      three-term Z at that volume equals P V / (R T). */
  lemma ThreeTermRootsMatchCompressibility(T: real, P: real, R: real, B: real, C: real, V: real)
    requires ThreeTermInputError(T, P, R, B, C).None? && V > 0.0
    ensures CompressibilityThreeTerm(V, B, C).Ok?
    ensures Cubic.CubicValue(P / (R * T), -1.0, -B, -C, V) == 0.0
      <==> CompressibilityThreeTerm(V, B, C).value == P * V / (R * T)
  {
    var k := P / (R * T);
    var z := CompressibilityThreeTerm(V, B, C).value;
    assert P * V / (R * T) == k * V;
    CubicAsResidual(k, B, C, V, z);
  }

  lemma CubicAsResidual(k: real, B: real, C: real, V: real, z: real)
    requires V > 0.0 && z * V * V == V * V + B * V + C
    ensures Cubic.CubicValue(k, -1.0, -B, -C, V) == (k * V - z) * V * V
    ensures Cubic.CubicValue(k, -1.0, -B, -C, V) == 0.0 <==> z == k * V
  {
    var w := k * V - z;
    Cubic.ZeroProduct(w, V);
    var wv := w * V;
    Cubic.ZeroProduct(wv, V);
  }
}
