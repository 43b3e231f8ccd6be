/** Generic cubic equations of state (cubic/cubic.go): the four standard
    models and user-supplied ones, the a and b parameters, the cubic in molar
    volume, the closed-form pressure and the filtering of the volume roots. */
module Cubic {
  import opened Errors
  import opened Numerics
  import opened SortLib

  /** The substance-independent constants (σ, ε, Ω, Ψ) of a cubic equation of state. */
  datatype Params = Params(sigma: real, epsilon: real, omega: real, psi: real)
  {
    /** x = ε + σ. */
    function Sum(): real { epsilon + sigma }

    /** y = εσ. */
    function Product(): real { epsilon * sigma }
  }

  /** The equation-of-state models: van der Waals, Redlich-Kwong, Soave-Redlich-Kwong,
      Peng-Robinson, and any other implementation a caller provides (its constants
      and its alpha function α(Tr, ω)). */
  datatype EOSType =
    | VdW
    | RK
    | SRK
    | PR
    | Custom(shape: Params, alpha: (real, real) -> real)

  /** Go's math.Sqrt2, digit for digit. */
  const Sqrt2: real := 1.41421356237309504880168872420969807856967187537694807317667974

  /** The tolerance below which |ε - σ| counts as zero. */
  const DegenerateTolerance: real := 0.000000001

  /** Models whose ε and σ coincide use the -A/Z fugacity correction. */
  predicate Degenerate(p: Params) {
    Abs(p.epsilon - p.sigma) < DegenerateTolerance
  }

  /** Constants for which b > 0 and the fugacity expressions have nonzero denominators. */
  predicate Admissible(p: Params) {
    p.omega > 0.0 && p.epsilon >= -1.0
  }

  function ParamsOf(t: EOSType): (p: Params)
    ensures t.VdW? ==> p == Params(0.0, 0.0, 1.0 / 8.0, 27.0 / 64.0)
    ensures t.RK? || t.SRK? ==> p == Params(1.0, 0.0, 0.08664, 0.42728)
    ensures t.PR? ==> p == Params(1.0 + Sqrt2, 1.0 - Sqrt2, 0.07780, 0.45724)
    ensures t.Custom? ==> p == t.shape
    ensures !t.Custom? ==> Admissible(p) && p.psi > 0.0
    ensures !t.Custom? ==> (Degenerate(p) <==> t.VdW?)
  {
    match t
    case VdW => Params(0.0, 0.0, 1.0 / 8.0, 27.0 / 64.0)
    case RK => Params(1.0, 0.0, 0.08664, 0.42728)
    case SRK => Params(1.0, 0.0, 0.08664, 0.42728)
    case PR => Params(1.0 + Sqrt2, 1.0 - Sqrt2, 0.07780, 0.45724)
    case Custom(shape, _) => shape
  }

  /** The alpha function α(Tr, ω). The SRK quadratic coefficient is -0.716 as in the source. */
  function Alpha(t: EOSType, tr: real, w: real, lib: Lib): (a: real)
    requires tr > 0.0 && lib.Valid()
    ensures t.VdW? ==> a == 1.0
    ensures t.RK? ==> a > 0.0 && a * lib.sqrt(tr) == 1.0
    ensures t.SRK? || t.PR? ==> a >= 0.0
    ensures t.Custom? ==> a == t.alpha(tr, w)
  {
    match t
    case VdW => 1.0
    case RK => 1.0 / lib.sqrt(tr)
    case SRK =>
      var m := 0.480 + 1.574 * w - 0.716 * w * w;
      var c := 1.0 + m * (1.0 - lib.sqrt(tr));
      c * c
    case PR =>
      var m := 0.37464 + 1.54226 * w - 0.26992 * w * w;
      var c := 1.0 + m * (1.0 - lib.sqrt(tr));
      c * c
    case Custom(_, alpha) => alpha(tr, w)
  }

  /** Every standard alpha function equals 1 at the critical temperature (Tr = 1). */
  lemma AlphaAtCriticalTemperature(t: EOSType, w: real, lib: Lib)
    requires lib.Valid() && !t.Custom?
    ensures Alpha(t, 1.0, w, lib) == 1.0
  {
    var s := lib.sqrt(1.0);
    assert s > 0.0 && s * s == 1.0;
    if s > 1.0 { assert false; }
    if s < 1.0 { assert false; }
  }

  /** The state and constants of one equation-of-state evaluation (EOSCfg). */
  datatype EOSCfg = EOSCfg(eos: EOSType, T: real, P: real, Tc: real, Pc: real, acentric: real, R: real)

  /** The result of solving for volume: a(T), b and the three roots of the cubic. */
  datatype VolumeResult = VolumeResult(a: real, b: real, volumes: Roots)

  /** The result of the pressure evaluation: a(T), b and the pressure. */
  datatype PressureResult = PressureResult(a: real, b: real, p: real)

  /** b = Ω R Tc / Pc. */
  function CalculateB(omega: real, r: real, tc: real, pc: real): (b: real)
    requires pc != 0.0
    ensures omega > 0.0 && r > 0.0 && tc > 0.0 && pc > 0.0 ==> b > 0.0
  {
    omega * r * tc / pc
  }

  /** a = Ψ α R² Tc² / Pc. */
  function CalculateA(psi: real, alpha: real, r: real, tc: real, pc: real): (a: real)
    requires pc != 0.0
    ensures psi > 0.0 && alpha > 0.0 && r != 0.0 && tc != 0.0 && pc > 0.0 ==> a > 0.0
    ensures psi == 0.0 || alpha == 0.0 || r == 0.0 || tc == 0.0 ==> a == 0.0
  {
    AttractionSign(psi, alpha, r, tc, pc);
    psi * alpha * r * r * tc * tc / pc
  }

  /** Ψ α R² Tc² / Pc is positive for positive Ψ, α and Pc and nonzero R and Tc. */
  lemma AttractionSign(psi: real, alpha: real, r: real, tc: real, pc: real)
    requires pc != 0.0
    ensures psi > 0.0 && alpha > 0.0 && r != 0.0 && tc != 0.0 && pc > 0.0 ==> psi * alpha * r * r * tc * tc / pc > 0.0
  {
    if psi > 0.0 && alpha > 0.0 && r != 0.0 && tc != 0.0 && pc > 0.0 {
      ProductPositive(psi, alpha, psi * alpha);
      TimesSquarePositive(psi * alpha, r, psi * alpha * r * r);
      TimesSquarePositive(psi * alpha * r * r, tc, psi * alpha * r * r * tc * tc);
      QuotientPositive(psi * alpha * r * r * tc * tc, pc, psi * alpha * r * r * tc * tc / pc);
    }
  }

  /** The sign facts take the product as a parameter z, so that a caller's
      products stay out of the solver's nonlinear reasoning. */
  lemma ProductPositive(x: real, y: real, z: real)
    requires x > 0.0 && y > 0.0 && z == x * y
    ensures z > 0.0
  {
  }

  lemma TimesSquarePositive(x: real, y: real, z: real)
    requires x > 0.0 && y != 0.0 && z == x * y * y
    ensures z > 0.0
  {
    if y > 0.0 {
      ProductPositive(x, y, x * y);
      ProductPositive(x * y, y, z);
    } else {
      ProductPositive(x, -y, x * -y);
      ProductPositive(x * -y, -y, z);
    }
  }

  lemma QuotientPositive(n: real, d: real, q: real)
    requires n > 0.0 && d > 0.0 && q == n / d
    ensures q > 0.0
  {
  }

  /** The checks SolveForVolume makes, in its order, before any algebra. */
  function VolumeInputError(cfg: EOSCfg): Option<Error> {
    if cfg.T <= 0.0 then Some(ErrTemp)
    else if cfg.P <= 0.0 then Some(ErrPressure)
    else if cfg.Pc <= 0.0 || cfg.Tc <= 0.0 then Some(ErrCriticalProp)
    else if cfg.R <= 0.0 then Some(ErrUniversalConst)
    else None
  }

  /** The checks Pressure makes: the same, without the one on P. */
  function PressureInputError(cfg: EOSCfg): Option<Error> {
    if cfg.T <= 0.0 then Some(ErrTemp)
    else if cfg.Pc <= 0.0 || cfg.Tc <= 0.0 then Some(ErrCriticalProp)
    else if cfg.R <= 0.0 then Some(ErrUniversalConst)
    else None
  }

  ghost predicate Positive(cfg: EOSCfg) {
    cfg.T > 0.0 && cfg.Tc > 0.0 && cfg.Pc > 0.0 && cfg.R > 0.0
  }

  /** a(T) = Ψ α(T/Tc, ω) R² Tc² / Pc. */
  function EosA(cfg: EOSCfg, lib: Lib): real
    requires cfg.T > 0.0 && cfg.Tc > 0.0 && cfg.Pc > 0.0 && lib.Valid()
  {
    CalculateA(ParamsOf(cfg.eos).psi, Alpha(cfg.eos, cfg.T / cfg.Tc, cfg.acentric, lib), cfg.R, cfg.Tc, cfg.Pc)
  }

  /** b = Ω R Tc / Pc. */
  function EosB(cfg: EOSCfg): real
    requires cfg.Pc > 0.0
  {
    CalculateB(ParamsOf(cfg.eos).omega, cfg.R, cfg.Tc, cfg.Pc)
  }

  /** The coefficients of e V³ + f V² + g V + h = 0. */
  datatype Coefficients = Coefficients(e: real, f: real, g: real, h: real)

  /** The ideal-gas molar volume R T / P. */
  function IdealGasVolume(R: real, T: real, P: real): real
    requires P != 0.0
  {
    R * T / P
  }

  /** The cubic in molar volume of a model with constants p, parameters a and
      b, pressure P and ideal-gas volume vIg. */
  function VolumeCubic(p: Params, a: real, b: real, vIg: real, P: real): Coefficients
    requires P != 0.0
  {
    CubicCoefficients(p.Sum(), p.Product(), a, b, vIg, P)
  }

  /** The coefficients e, f, g, h of the volume cubic written with x = ε + σ and y = εσ. */
  function CubicCoefficients(x: real, y: real, a: real, b: real, vIg: real, P: real): Coefficients
    requires P != 0.0
  {
    Coefficients(
      1.0,
      b * (x - 1.0) - vIg,
      b * ((y - x) * b - x * vIg) + a / P,
      -y * b * b * (b + vIg) - a * b / P)
  }

  /** The value of e V³ + f V² + g V + h at V = v. */
  function CubicAt(c: Coefficients, v: real): real {
    CubicValue(c.e, c.f, c.g, c.h, v)
  }

  function CubicValue(e: real, f: real, g: real, h: real, v: real): real {
    e * v * v * v + f * v * v + g * v + h
  }

  /** The cubic SolveForVolume hands to the solver, as written: its ideal-gas
      volume is R Tc / Pc whatever the state's T and P. */
  function AsWrittenCubic(cfg: EOSCfg, lib: Lib): Coefficients
    requires VolumeInputError(cfg).None? && lib.Valid()
  {
    VolumeCubic(ParamsOf(cfg.eos), EosA(cfg, lib), EosB(cfg), IdealGasVolume(cfg.R, cfg.Tc, cfg.Pc), cfg.P)
  }

  /** The cubic of the equation of state at the configuration's own T and P
      (ideal-gas volume R T / P). */
  function StateCubic(cfg: EOSCfg, lib: Lib): Coefficients
    requires VolumeInputError(cfg).None? && lib.Valid()
  {
    VolumeCubic(ParamsOf(cfg.eos), EosA(cfg, lib), EosB(cfg), IdealGasVolume(cfg.R, cfg.T, cfg.P), cfg.P)
  }

  /** SolveForVolume exactly as the source computes it. */
  function SolveForVolumeAsWritten(cfg: EOSCfg, lib: Lib): (r: Result<VolumeResult>)
    requires lib.Valid()
    ensures cfg.T <= 0.0 ==> r == Err(ErrTemp)
    ensures cfg.T > 0.0 && cfg.P <= 0.0 ==> r == Err(ErrPressure)
    ensures cfg.T > 0.0 && cfg.P > 0.0 && (cfg.Pc <= 0.0 || cfg.Tc <= 0.0) ==> r == Err(ErrCriticalProp)
    ensures cfg.T > 0.0 && cfg.P > 0.0 && cfg.Pc > 0.0 && cfg.Tc > 0.0 && cfg.R <= 0.0 ==> r == Err(ErrUniversalConst)
    ensures r.Ok? <==> Positive(cfg) && cfg.P > 0.0
    ensures r.Ok? ==> r.value.a == EosA(cfg, lib) && r.value.b == EosB(cfg)
    ensures r.Ok? ==> r.value.volumes == lib.cubicRoots(1.0, AsWrittenCubic(cfg, lib).f, AsWrittenCubic(cfg, lib).g, AsWrittenCubic(cfg, lib).h)
  {
    match VolumeInputError(cfg)
    case Some(e) => Err(e)
    case None =>
      var a := EosA(cfg, lib);
      var b := EosB(cfg);
      var c := AsWrittenCubic(cfg, lib);
      match SolveCubic(lib, c.e, c.f, c.g, c.h)
      case Err(e) => Err(CubicFailed(e))
      case Ok(roots) => Ok(VolumeResult(a, b, roots))
  }

  /** SolveForVolume with the ideal-gas volume R T / P, so that the cubic's real
      roots are exactly the volumes at which the equation of state gives P. */
  function SolveForVolume(cfg: EOSCfg, lib: Lib): (r: Result<VolumeResult>)
    requires lib.Valid()
    ensures cfg.T <= 0.0 ==> r == Err(ErrTemp)
    ensures cfg.T > 0.0 && cfg.P <= 0.0 ==> r == Err(ErrPressure)
    ensures cfg.T > 0.0 && cfg.P > 0.0 && (cfg.Pc <= 0.0 || cfg.Tc <= 0.0) ==> r == Err(ErrCriticalProp)
    ensures cfg.T > 0.0 && cfg.P > 0.0 && cfg.Pc > 0.0 && cfg.Tc > 0.0 && cfg.R <= 0.0 ==> r == Err(ErrUniversalConst)
    ensures r.Ok? <==> Positive(cfg) && cfg.P > 0.0
    ensures r.Ok? ==> r.value.a == EosA(cfg, lib) && r.value.b == EosB(cfg)
    ensures r.Ok? && ParamsOf(cfg.eos).omega > 0.0 ==> r.value.b > 0.0
    ensures r.Ok? ==> r.value.volumes == lib.cubicRoots(1.0, StateCubic(cfg, lib).f, StateCubic(cfg, lib).g, StateCubic(cfg, lib).h)
  {
    match VolumeInputError(cfg)
    case Some(e) => Err(e)
    case None =>
      var a := EosA(cfg, lib);
      var b := EosB(cfg);
      var c := StateCubic(cfg, lib);
      match SolveCubic(lib, c.e, c.f, c.g, c.h)
      case Err(e) => Err(CubicFailed(e))
      case Ok(roots) => Ok(VolumeResult(a, b, roots))
  }

  /** The denominators of the pressure expression at volume v are nonzero. */
  predicate PressureDenominatorsNonzero(p: Params, b: real, v: real) {
    v - b != 0.0 && AttractionDenominator(p, b, v) != 0.0
  }

  /** The equation of state solved for pressure. */
  function EosPressure(p: Params, a: real, b: real, R: real, T: real, v: real): real
    requires PressureDenominatorsNonzero(p, b, v)
  {
    R * T / (v - b) - a / AttractionDenominator(p, b, v)
  }

  /** Where a denominator of the pressure expression vanishes Go yields an
      infinity or NaN; those volumes are outside the model once the input
      checks pass. A failing check returns before any division. */
  ghost predicate PressureDefined(cfg: EOSCfg, v: real) {
    PressureInputError(cfg).None? ==> PressureDenominatorsNonzero(ParamsOf(cfg.eos), EosB(cfg), v)
  }

  /** P = R T / (V - b) - a / ((V + εb)(V + σb)); the pressure field of the
      configuration is not examined. */
  function Pressure(cfg: EOSCfg, volume: real, lib: Lib): (r: Result<PressureResult>)
    requires lib.Valid() && PressureDefined(cfg, volume)
    ensures cfg.T <= 0.0 ==> r == Err(ErrTemp)
    ensures cfg.T > 0.0 && (cfg.Pc <= 0.0 || cfg.Tc <= 0.0) ==> r == Err(ErrCriticalProp)
    ensures cfg.T > 0.0 && cfg.Pc > 0.0 && cfg.Tc > 0.0 && cfg.R <= 0.0 ==> r == Err(ErrUniversalConst)
    ensures r.Ok? <==> Positive(cfg)
    ensures r.Ok? ==> r.value.a == EosA(cfg, lib) && r.value.b == EosB(cfg)
    ensures r.Ok? ==> r.value.p == EosPressure(ParamsOf(cfg.eos), r.value.a, r.value.b, cfg.R, cfg.T, volume)
  {
    match PressureInputError(cfg)
    case Some(e) => Err(e)
    case None =>
      var a := EosA(cfg, lib);
      var b := EosB(cfg);
      Ok(PressureResult(a, b, EosPressure(ParamsOf(cfg.eos), a, b, cfg.R, cfg.T, volume)))
  }

  /** The attractive-term denominator (V + εb)(V + σb). */
  function AttractionDenominator(p: Params, b: real, v: real): real {
    (v + p.epsilon * b) * (v + p.sigma * b)
  }

  /** (V + εb)(V + σb) = V² + (ε + σ) b V + εσ b². */
  lemma ExpandDenominator(p: Params, b: real, v: real)
    ensures AttractionDenominator(p, b, v) == v * v + p.Sum() * b * v + p.Product() * b * b
  {
  }

  lemma CubicCoefficientsAt(x: real, y: real, a: real, b: real, vIg: real, P: real, v: real)
    requires P != 0.0
    ensures CubicAt(CubicCoefficients(x, y, a, b, vIg, P), v)
         == CubicValue(1.0, b * (x - 1.0) - vIg, b * ((y - x) * b - x * vIg) + a / P, -y * b * b * (b + vIg) - a * b / P, v)
  {
  }

  /** The polynomial identity behind the volume cubic. */
  lemma CubicCoefficientsFactored(x: real, y: real, a: real, b: real, vIg: real, P: real, v: real)
    requires P != 0.0
    ensures CubicValue(1.0, b * (x - 1.0) - vIg, b * ((y - x) * b - x * vIg) + a / P, -y * b * b * (b + vIg) - a * b / P, v)
         == (v - b) * (v * v + x * b * v + y * b * b) - vIg * (v * v + x * b * v + y * b * b) + (a / P) * (v - b)
  {
    assert a * b / P == (a / P) * b;
  }

  lemma CubicCoefficientsExpanded(x: real, y: real, a: real, b: real, vIg: real, P: real, v: real)
    requires P != 0.0
    ensures CubicAt(CubicCoefficients(x, y, a, b, vIg, P), v)
         == (v - b) * (v * v + x * b * v + y * b * b) - vIg * (v * v + x * b * v + y * b * b) + (a / P) * (v - b)
  {
    CubicCoefficientsAt(x, y, a, b, vIg, P, v);
    CubicCoefficientsFactored(x, y, a, b, vIg, P, v);
  }

  /** (V - b) D - vIg D + (a / P)(V - b), where D is the attractive-term
      denominator (V + εb)(V + σb). */
  function FactoredCubic(p: Params, a: real, b: real, vIg: real, P: real, v: real): real
    requires P != 0.0
  {
    (v - b) * AttractionDenominator(p, b, v) - vIg * AttractionDenominator(p, b, v) + (a / P) * (v - b)
  }

  lemma FactoredCubicTerms(p: Params, a: real, b: real, vIg: real, P: real, v: real)
    requires P != 0.0
    ensures FactoredCubic(p, a, b, vIg, P, v)
         == (v - b) * AttractionDenominator(p, b, v) - vIg * AttractionDenominator(p, b, v) + (a / P) * (v - b)
  {
  }

  /** The volume cubic factors through the pressure equation's denominators. */
  lemma VolumeCubicFactored(p: Params, a: real, b: real, vIg: real, P: real, v: real)
    requires P != 0.0
    ensures CubicAt(VolumeCubic(p, a, b, vIg, P), v) == FactoredCubic(p, a, b, vIg, P, v)
  {
    VolumeCubicExpanded(p, a, b, vIg, P, v);
    FactoredCubicExpanded(p, a, b, vIg, P, v);
  }

  lemma VolumeCubicExpanded(p: Params, a: real, b: real, vIg: real, P: real, v: real)
    requires P != 0.0
    ensures CubicAt(VolumeCubic(p, a, b, vIg, P), v)
         == (v - b) * (v * v + p.Sum() * b * v + p.Product() * b * b)
            - vIg * (v * v + p.Sum() * b * v + p.Product() * b * b) + (a / P) * (v - b)
  {
    CubicCoefficientsExpanded(p.Sum(), p.Product(), a, b, vIg, P, v);
  }

  lemma FactoredCubicExpanded(p: Params, a: real, b: real, vIg: real, P: real, v: real)
    requires P != 0.0
    ensures FactoredCubic(p, a, b, vIg, P, v)
         == (v - b) * (v * v + p.Sum() * b * v + p.Product() * b * b)
            - vIg * (v * v + p.Sum() * b * v + p.Product() * b * b) + (a / P) * (v - b)
  {
    FactoredCubicTerms(p, a, b, vIg, P, v);
    ExpandDenominator(p, b, v);
  }

  /** Multiplying the pressure by both denominators clears its fractions. */
  lemma PressureTimesDenominators(p: Params, a: real, b: real, R: real, T: real, v: real)
    requires PressureDenominatorsNonzero(p, b, v)
    ensures EosPressure(p, a, b, R, T, v) * ((v - b) * AttractionDenominator(p, b, v))
         == R * T * AttractionDenominator(p, b, v) - a * (v - b)
  {
    var d1, d2 := v - b, AttractionDenominator(p, b, v);
    var q1, q2 := R * T / d1, a / d2;
    assert q1 * d1 == R * T;
    assert q2 * d2 == a;
    calc {
      (q1 - q2) * (d1 * d2);
      (q1 * d1) * d2 - (q2 * d2) * d1;
      R * T * d2 - a * d1;
    }
  }

  lemma ZeroProduct(x: real, y: real)
    requires y != 0.0
    ensures x * y == 0.0 <==> x == 0.0
  {
  }

  /** Over plain numbers: with P q = a, P vIg = RT and pv d1 D = RT D - a d1,
      pv equals P exactly when d1 D - vIg D + q d1 vanishes. */
  lemma PressureIffAlgebra(pv: real, P: real, d1: real, D: real, vIg: real, q: real, a: real, RT: real)
    requires P != 0.0 && d1 != 0.0 && D != 0.0
    requires P * q == a && vIg * P == RT
    requires pv * (d1 * D) == RT * D - a * d1
    ensures pv == P <==> d1 * D - vIg * D + q * d1 == 0.0
  {
    ZeroProduct(d1, D);
    assert P * (d1 * D - vIg * D + q * d1) == (P - pv) * (d1 * D);
    ZeroProduct(P - pv, d1 * D);
    ZeroProduct(d1 * D - vIg * D + q * d1, P);
  }

  /** The pressure expression equals P exactly where the factored volume cubic vanishes. */
  lemma PressureIffFactored(p: Params, a: real, b: real, R: real, T: real, P: real, v: real)
    requires P != 0.0 && PressureDenominatorsNonzero(p, b, v)
    ensures EosPressure(p, a, b, R, T, v) == P <==> FactoredCubic(p, a, b, IdealGasVolume(R, T, P), P, v) == 0.0
  {
    PressureTimesDenominators(p, a, b, R, T, v);
    IdealGasVolumeScaled(R, T, P);
    DivideBack(a, P);
    PressureIffAlgebra(EosPressure(p, a, b, R, T, v), P, v - b, AttractionDenominator(p, b, v),
                       IdealGasVolume(R, T, P), a / P, a, R * T);
  }

  lemma IdealGasVolumeScaled(R: real, T: real, P: real)
    requires P != 0.0
    ensures IdealGasVolume(R, T, P) * P == R * T
  {
  }

  lemma DivideBack(a: real, P: real)
    requires P != 0.0
    ensures P * (a / P) == a
  {
  }

  /** The roots of the volume cubic with ideal-gas volume R T / P are the volumes
      at which the pressure expression equals P. */
  lemma {:induction false} CubicRootIffPressure(p: Params, a: real, b: real, R: real, T: real, P: real, v: real)
    requires P != 0.0 && PressureDenominatorsNonzero(p, b, v)
    ensures CubicAt(VolumeCubic(p, a, b, IdealGasVolume(R, T, P), P), v) == 0.0 <==> EosPressure(p, a, b, R, T, v) == P
  {
    VolumeCubicFactored(p, a, b, IdealGasVolume(R, T, P), P, v);
    PressureIffFactored(p, a, b, R, T, P, v);
  }

  /** The real roots of the state's cubic are exactly the volumes at which the
      equation of state gives back the configuration's pressure. */
  lemma {:induction false} StateCubicRootsArePressureRoots(cfg: EOSCfg, v: real, lib: Lib)
    requires lib.Valid() && Positive(cfg) && cfg.P > 0.0 && PressureDefined(cfg, v)
    ensures Pressure(cfg, v, lib).Ok?
    ensures CubicAt(StateCubic(cfg, lib), v) == 0.0 <==> Pressure(cfg, v, lib).value.p == cfg.P
  {
    var p, a, b := ParamsOf(cfg.eos), EosA(cfg, lib), EosB(cfg);
    var R, T, P := cfg.R, cfg.T, cfg.P;
    assert PressureDenominatorsNonzero(p, b, v);
    var pr := Pressure(cfg, v, lib);
    assert pr.Ok? && pr.value.p == EosPressure(p, a, b, R, T, v);
    CubicRootIffPressure(p, a, b, R, T, P, v);
  }

  /** With R Tc / Pc in place of R T / P the cubic misses the state's volume:
      for van der Waals with R = 8, Tc = Pc = 1 (so a = 27, b = 1) and T = 2,
      the volume V = 3 gives the pressure P = 5, yet V = 3 is not a root of
      the cubic the source builds for that T and P. */
  lemma AsWrittenCubicMissesStateVolume(cfg: EOSCfg, lib: Lib)
    requires lib.Valid() && cfg == EOSCfg(VdW, 2.0, 5.0, 1.0, 1.0, 0.0, 8.0)
    ensures VolumeInputError(cfg).None? && PressureDefined(cfg, 3.0)
    ensures Pressure(cfg, 3.0, lib) == Ok(PressureResult(27.0, 1.0, 5.0))
    ensures CubicAt(AsWrittenCubic(cfg, lib), 3.0) != 0.0
    ensures CubicAt(StateCubic(cfg, lib), 3.0) == 0.0
  {
    VdWExamplePressure(cfg, lib);
    VdWExampleRoots(cfg, lib);
  }

  lemma VdWExamplePressure(cfg: EOSCfg, lib: Lib)
    requires lib.Valid() && cfg == EOSCfg(VdW, 2.0, 5.0, 1.0, 1.0, 0.0, 8.0)
    ensures VolumeInputError(cfg).None? && PressureDefined(cfg, 3.0)
    ensures Pressure(cfg, 3.0, lib) == Ok(PressureResult(27.0, 1.0, 5.0))
  {
    VdWExampleParameters(cfg, lib);
    VdWPressureAtThree();
  }

  lemma VdWExampleRoots(cfg: EOSCfg, lib: Lib)
    requires lib.Valid() && cfg == EOSCfg(VdW, 2.0, 5.0, 1.0, 1.0, 0.0, 8.0)
    ensures VolumeInputError(cfg).None?
    ensures CubicAt(AsWrittenCubic(cfg, lib), 3.0) == -43.2
    ensures CubicAt(StateCubic(cfg, lib), 3.0) == 0.0
  {
    VdWExampleParameters(cfg, lib);
    VdWExampleAsWrittenCubic(cfg, lib);
    VdWExampleStateCubic(cfg, lib);
    VdWCubicAtThree(8.0, -9.0);
    VdWCubicAtThree(3.2, -4.2);
  }

  /** The example configuration passes validation with a = 27 and b = 1. */
  lemma VdWExampleParameters(cfg: EOSCfg, lib: Lib)
    requires lib.Valid() && cfg == EOSCfg(VdW, 2.0, 5.0, 1.0, 1.0, 0.0, 8.0)
    ensures VolumeInputError(cfg).None? && EosA(cfg, lib) == 27.0 && EosB(cfg) == 1.0
  {
    assert Alpha(VdW, 2.0, 0.0, lib) == 1.0;
  }

  /** The cubic the source builds for the example: ideal-gas volume R Tc / Pc = 8. */
  lemma VdWExampleAsWrittenCubic(cfg: EOSCfg, lib: Lib)
    requires lib.Valid() && cfg == EOSCfg(VdW, 2.0, 5.0, 1.0, 1.0, 0.0, 8.0)
    requires VolumeInputError(cfg).None? && EosA(cfg, lib) == 27.0 && EosB(cfg) == 1.0
    ensures AsWrittenCubic(cfg, lib) == VolumeCubic(ParamsOf(VdW), 27.0, 1.0, 8.0, 5.0)
  {
    assert IdealGasVolume(cfg.R, cfg.Tc, cfg.Pc) == 8.0;
  }

  /** The cubic of the example state: ideal-gas volume R T / P = 16/5. */
  lemma VdWExampleStateCubic(cfg: EOSCfg, lib: Lib)
    requires lib.Valid() && cfg == EOSCfg(VdW, 2.0, 5.0, 1.0, 1.0, 0.0, 8.0)
    requires VolumeInputError(cfg).None? && EosA(cfg, lib) == 27.0 && EosB(cfg) == 1.0
    ensures StateCubic(cfg, lib) == VolumeCubic(ParamsOf(VdW), 27.0, 1.0, 3.2, 5.0)
  {
    assert IdealGasVolume(cfg.R, cfg.T, cfg.P) == 3.2 by {
      assert cfg.R * cfg.T == 16.0;
    }
  }

  /** At V = 3 the van der Waals pressure with a = 27, b = 1, R = 8 and T = 2 is 5. */
  lemma VdWPressureAtThree()
    ensures PressureDenominatorsNonzero(ParamsOf(VdW), 1.0, 3.0)
    ensures EosPressure(ParamsOf(VdW), 27.0, 1.0, 8.0, 2.0, 3.0) == 5.0
  {
    assert AttractionDenominator(ParamsOf(VdW), 1.0, 3.0) == 9.0;
  }

  /** The van der Waals cubic for a = 27, b = 1, P = 5 at V = 3, whose V² coefficient
      is f = -1 - vIg. */
  lemma VdWCubicAtThree(vIg: real, f: real)
    requires f == -1.0 - vIg
    ensures CubicAt(VolumeCubic(ParamsOf(VdW), 27.0, 1.0, vIg, 5.0), 3.0) == 27.0 + 9.0 * f + 10.8
  {
    var c := VolumeCubic(ParamsOf(VdW), 27.0, 1.0, vIg, 5.0);
    assert c == Coefficients(1.0, f, 5.4, -5.4);
  }

  /** The two cubics agree when T / P == Tc / Pc, for instance at the critical point. */
  lemma AsWrittenAgreesAtCriticalRatio(cfg: EOSCfg, lib: Lib)
    requires lib.Valid() && Positive(cfg) && cfg.P > 0.0
    requires cfg.T * cfg.Pc == cfg.Tc * cfg.P
    ensures SolveForVolumeAsWritten(cfg, lib) == SolveForVolume(cfg, lib)
  {
    var T, P, Tc, Pc := cfg.T, cfg.P, cfg.Tc, cfg.Pc;
    assert T / P == Tc / Pc by {
      calc {
        T / P;
        (T * Pc) / (P * Pc);
        (Tc * P) / (P * Pc);
        Tc / Pc;
      }
    }
    assert cfg.R * T / P == cfg.R * Tc / Pc;
    assert AsWrittenCubic(cfg, lib) == StateCubic(cfg, lib);
  }

  // ---------------------------------------------------------------------------
  // Constructors of the four standard configurations

  /** NewvdWCfg: a van der Waals configuration; the acentric factor is forced to 0. */
  function NewVdWCfg(T: real, P: real, Tc: real, Pc: real, R: real): (cfg: EOSCfg)
    ensures cfg.eos == VdW && cfg.acentric == 0.0
    ensures cfg.T == T && cfg.P == P && cfg.Tc == Tc && cfg.Pc == Pc && cfg.R == R
  {
    EOSCfg(VdW, T, P, Tc, Pc, 0.0, R)
  }

  /** NewRKCfg: a Redlich-Kwong configuration; the acentric factor is forced to 0. */
  function NewRKCfg(T: real, P: real, Tc: real, Pc: real, R: real): (cfg: EOSCfg)
    ensures cfg.eos == RK && cfg.acentric == 0.0
    ensures cfg.T == T && cfg.P == P && cfg.Tc == Tc && cfg.Pc == Pc && cfg.R == R
  {
    EOSCfg(RK, T, P, Tc, Pc, 0.0, R)
  }

  /** NewSRKCfg: a Soave-Redlich-Kwong configuration with acentric factor W. */
  function NewSRKCfg(T: real, P: real, Tc: real, Pc: real, W: real, R: real): (cfg: EOSCfg)
    ensures cfg.eos == SRK && cfg.acentric == W
    ensures cfg.T == T && cfg.P == P && cfg.Tc == Tc && cfg.Pc == Pc && cfg.R == R
  {
    EOSCfg(SRK, T, P, Tc, Pc, W, R)
  }

  /** NewPRCfg: a Peng-Robinson configuration with acentric factor W. */
  function NewPRCfg(T: real, P: real, Tc: real, Pc: real, W: real, R: real): (cfg: EOSCfg)
    ensures cfg.eos == PR && cfg.acentric == W
    ensures cfg.T == T && cfg.P == P && cfg.Tc == Tc && cfg.Pc == Pc && cfg.R == R
  {
    EOSCfg(PR, T, P, Tc, Pc, W, R)
  }

  /** The acentric factor is irrelevant to van der Waals and Redlich-Kwong: their
      alpha functions ignore it, so forcing it to 0 loses nothing. */
  lemma AcentricIgnoredByVdWAndRK(t: EOSType, tr: real, w1: real, w2: real, lib: Lib)
    requires tr > 0.0 && lib.Valid() && (t.VdW? || t.RK?)
    ensures Alpha(t, tr, w1, lib) == Alpha(t, tr, w2, lib)
  {
  }

  // ---------------------------------------------------------------------------
  // Clean: the real roots, sorted

  /** The tolerance below which an imaginary part counts as zero. */
  const ImaginaryTolerance: real := 0.000000001

  predicate NearlyReal(z: Complex) {
    Abs(z.im) < ImaginaryTolerance
  }

  /** The real parts of the nearly real roots, in the solver's order, once per root. */
  function Qualifying(vs: seq<Complex>): (r: seq<real>)
    ensures |r| <= |vs|
  {
    if vs == [] then []
    else
      var last := vs[|vs| - 1];
      Qualifying(vs[..|vs| - 1]) + (if NearlyReal(last) then [last.re] else [])
  }

  /** A value is kept exactly when it is the real part of some nearly real root. */
  lemma {:induction false} QualifyingMembers(vs: seq<Complex>, x: real)
    ensures x in Qualifying(vs) <==> exists i :: 0 <= i < |vs| && NearlyReal(vs[i]) && vs[i].re == x
  {
    if vs != [] {
      var init := vs[..|vs| - 1];
      QualifyingMembers(init, x);
      if exists i :: 0 <= i < |vs| && NearlyReal(vs[i]) && vs[i].re == x {
        var i :| 0 <= i < |vs| && NearlyReal(vs[i]) && vs[i].re == x;
        if i < |vs| - 1 { assert init[i] == vs[i]; }
      }
      if exists i :: 0 <= i < |init| && NearlyReal(init[i]) && init[i].re == x {
        var i :| 0 <= i < |init| && NearlyReal(init[i]) && init[i].re == x;
        assert vs[i] == init[i];
      }
    }
  }

  /** When every root is nearly real, every root contributes one value. */
  lemma {:induction false} QualifyingAllReal(vs: seq<Complex>)
    requires forall i :: 0 <= i < |vs| ==> NearlyReal(vs[i])
    ensures |Qualifying(vs)| == |vs|
  {
    if vs != [] {
      QualifyingAllReal(vs[..|vs| - 1]);
    }
  }

  /** Clean's result as a value: the kept real parts in ascending order. */
  function CleanRoots(vs: seq<Complex>): (r: seq<real>)
    ensures Sorted(r) && |r| <= |vs|
    ensures multiset(r) == multiset(Qualifying(vs))
  {
    SortAscending(Qualifying(vs))
  }

  /** VolumeResult.Clean: collects the real parts of the roots whose imaginary
      part is below the tolerance, then sorts them ascending. */
  method Clean(vr: VolumeResult) returns (res: seq<real>)
    ensures res == CleanRoots(vr.volumes)
    ensures Sorted(res) && |res| <= 3
    ensures forall x :: x in res <==> exists i :: 0 <= i < 3 && NearlyReal(vr.volumes[i]) && vr.volumes[i].re == x
  {
    var kept: seq<real> := [];
    var i := 0;
    while i < 3
      invariant 0 <= i <= 3
      invariant kept == Qualifying(vr.volumes[..i])
    {
      var value := vr.volumes[i];
      assert vr.volumes[..i + 1][..i] == vr.volumes[..i];
      if Abs(value.im) < ImaginaryTolerance {
        kept := kept + [value.re];
      }
      i := i + 1;
    }
    assert vr.volumes[..3] == vr.volumes;
    res := SortAscending(kept);
    forall x ensures x in res <==> exists i :: 0 <= i < 3 && NearlyReal(vr.volumes[i]) && vr.volumes[i].re == x {
      QualifyingMembers(vr.volumes, x);
      assert x in res <==> x in multiset(res);
      assert x in kept <==> x in multiset(kept);
    }
  }
}
