/** The saturation-pressure iteration of a cubic equation of state
    (cubic/saturation.go): the fugacity-coefficient expression and the control
    structure of the bounded fixed-point loop. Convergence itself is numerics
    and is not claimed; what is stated is what each round does and what a
    returned value means. */
module Saturation {
  import opened Errors
  import opened Numerics
  import opened SortLib
  import opened Cubic

  /** |ln φl - ln φv| below this ends the iteration. */
  const ConvergenceTolerance: real := 0.00000001

  /** The largest number of rounds before giving up. */
  const MaxRounds: nat := 100

  /** The denominators of the fugacity expression are nonzero. */
  predicate FugacityDefined(p: Params, Z: real, B: real) {
    if Degenerate(p) then Z != 0.0 else B != 0.0 && Z + p.epsilon * B != 0.0
  }

  /** ln φ = Z - 1 - ln(Z - B) + I, where I is -A/Z for a model with ε = σ
      (within the degenerate tolerance) and A/(B(ε - σ)) ln((Z + σB)/(Z + εB))
      otherwise. Without attraction (A = 0) I vanishes in both forms. */
  function LogFugacity(cfg: EOSCfg, Z: real, A: real, B: real, lib: Lib): (phi: real)
    requires FugacityDefined(ParamsOf(cfg.eos), Z, B)
    ensures A == 0.0 ==> phi == Z - 1.0 - lib.log(Z - B)
  {
    var p := ParamsOf(cfg.eos);
    var term1 := Z - 1.0 - lib.log(Z - B);
    var diff := p.epsilon - p.sigma;
    var term2 :=
      if Abs(diff) < DegenerateTolerance then -A / Z
      else (A / (B * diff)) * lib.log((Z + p.sigma * B) / (Z + p.epsilon * B));
    term1 + term2
  }

  /** The van der Waals model always takes the -A/Z correction. */
  lemma LogFugacityVdW(cfg: EOSCfg, Z: real, A: real, B: real, lib: Lib)
    requires cfg.eos.VdW? && Z != 0.0
    ensures FugacityDefined(ParamsOf(cfg.eos), Z, B)
    ensures LogFugacity(cfg, Z, A, B, lib) == Z - 1.0 - lib.log(Z - B) + -A / Z
  {
  }

  /** Redlich-Kwong, Soave-Redlich-Kwong and Peng-Robinson take the logarithmic
      correction, whose coefficient has ε - σ in the denominator. */
  lemma LogFugacityNonDegenerate(cfg: EOSCfg, Z: real, A: real, B: real, lib: Lib)
    requires (cfg.eos.RK? || cfg.eos.SRK? || cfg.eos.PR?) && B != 0.0
    requires Z + ParamsOf(cfg.eos).epsilon * B != 0.0
    ensures FugacityDefined(ParamsOf(cfg.eos), Z, B)
    ensures var p := ParamsOf(cfg.eos);
      LogFugacity(cfg, Z, A, B, lib)
        == Z - 1.0 - lib.log(Z - B) + (A / (B * (p.epsilon - p.sigma))) * lib.log((Z + p.sigma * B) / (Z + p.epsilon * B))
  {
  }

  /** With Z > B > 0 and an admissible model (ε >= -1) every denominator of the
      fugacity expression is positive. */
  lemma FugacityDefinedAboveCovolume(p: Params, Z: real, B: real)
    requires Admissible(p) && B > 0.0 && Z > B
    ensures FugacityDefined(p, Z, B)
  {
    var e := p.epsilon + 1.0;
    assert e >= 0.0;
    assert e * B >= 0.0;
    assert Z + p.epsilon * B == (Z - B) + e * B;
  }

  /** The step factor exp(ln φl - ln φv), limited to [0.8, 1.2]. */
  function Clamp(ratio: real): (r: real)
    ensures 0.8 <= r <= 1.2
    ensures 0.8 <= ratio <= 1.2 ==> r == ratio
    ensures ratio > 1.2 ==> r == 1.2
    ensures ratio < 0.8 ==> r == 0.8
  {
    if ratio > 1.2 then 1.2 else if ratio < 0.8 then 0.8 else ratio
  }

  /** The configuration of one round: the caller's, with P and T replaced. */
  function IterationConfig(cfg: EOSCfg, T: real, P: real): (c: EOSCfg)
    ensures c.P == P && c.T == T
    ensures c.eos == cfg.eos && c.Tc == cfg.Tc && c.Pc == cfg.Pc && c.acentric == cfg.acentric && c.R == cfg.R
  {
    cfg.(P := P, T := T)
  }

  /** The Wilson estimate Pc exp(5.373 (1 + ω)(1 - 1/Tr)) with Tr = T / Tc. */
  function WilsonGuess(cfg: EOSCfg, T: real, lib: Lib): (P: real)
    requires T != 0.0 && cfg.Tc != 0.0 && lib.Valid()
    ensures cfg.Pc > 0.0 ==> P > 0.0
  {
    cfg.Pc * lib.exp(5.373 * (1.0 + cfg.acentric) * (1.0 - 1.0 / (T / cfg.Tc)))
  }

  /** The starting pressure: the Wilson estimate, which is finite for every
      T and Tc other than 0. Where 1/Tr divides by zero (T = 0, or Tc = 0)
      0 stands in; every T <= 0 makes the first round fail with ErrTemp
      whatever the start (SaturationPressureNonPositiveTemperature). */
  function InitialPressure(cfg: EOSCfg, T: real, lib: Lib): (P: real)
    requires lib.Valid()
    ensures 0.0 < T < cfg.Tc && cfg.Pc > 0.0 ==> P > 0.0
  {
    if T != 0.0 && cfg.Tc != 0.0 then WilsonGuess(cfg, T, lib) else 0.0
  }

  /** Which cubic the loop solves in each round: the one SolveForVolume builds
      as written (ideal-gas volume R Tc / Pc), or the intended one (R T / P). */
  datatype VolumeSolver = AsWritten | Intended

  /** The call to SolveForVolume in the loop, for either version of the cubic.
      Both versions make the same checks and report the same a and b. */
  function SolveVolumes(solver: VolumeSolver, cfg: EOSCfg, lib: Lib): (r: Result<VolumeResult>)
    requires lib.Valid()
    ensures r.Err? <==> VolumeInputError(cfg).Some?
    ensures r.Err? ==> r.error == VolumeInputError(cfg).value
    ensures r.Ok? ==> Positive(cfg) && cfg.P > 0.0 && r.value.a == EosA(cfg, lib) && r.value.b == EosB(cfg)
    ensures r.Ok? && ParamsOf(cfg.eos).omega > 0.0 ==> r.value.b > 0.0
  {
    match solver
    case AsWritten => SolveForVolumeAsWritten(cfg, lib)
    case Intended => SolveForVolume(cfg, lib)
  }

  /** The volume solver as the loop sees it: a function of the round's configuration. */
  type Solver = EOSCfg -> Result<VolumeResult>

  /** What the loop relies on from the volume solver at configuration cfg: the
      input checks in SolveForVolume's order and, on success, the a and b of
      the configuration, with b > 0 when Ω > 0. */
  ghost predicate SolverResult(cfg: EOSCfg, r: Result<VolumeResult>, lib: Lib)
    requires lib.Valid()
  {
    && (r.Err? <==> VolumeInputError(cfg).Some?)
    && (r.Err? ==> r.error == VolumeInputError(cfg).value)
    && (r.Ok? ==> Positive(cfg) && cfg.P > 0.0 && r.value.a == EosA(cfg, lib) && r.value.b == EosB(cfg))
    && (r.Ok? && ParamsOf(cfg.eos).omega > 0.0 ==> r.value.b > 0.0)
  }

  /** The solver behaves as SolveForVolume at every configuration. */
  ghost predicate MeetsSolverSpec(solve: Solver, lib: Lib)
    requires lib.Valid()
  {
    forall c :: SolverResult(c, solve(c), lib)
  }

  /** Either version of SolveForVolume as a solver for the loop; both behave as
      the loop relies on. */
  function SolverOf(solver: VolumeSolver, lib: Lib): (solve: Solver)
    requires lib.Valid()
    ensures MeetsSolverSpec(solve, lib)
    ensures forall c :: solve(c) == SolveVolumes(solver, c, lib)
  {
    c => SolveVolumes(solver, c, lib)
  }

  /** What one round decides: stop with a result, or go on with a new pressure. */
  datatype Step = Done(result: Result<real>) | Continue(next: real)

  /** The precondition every round needs: a numeric library meeting its
      axioms and a model for which b > 0 and the fugacity denominators do not vanish. */
  ghost predicate Usable(cfg: EOSCfg, lib: Lib) {
    lib.Valid() && Admissible(ParamsOf(cfg.eos))
  }

  /** The product R T. */
  function MolarEnergy(R: real, T: real): real {
    R * T
  }

  /** The dimensionless A = a P / (RT)². */
  function DimensionlessA(a: real, P: real, RT: real): real
    requires RT != 0.0
  {
    a * P / (RT * RT)
  }

  /** The dimensionless B = b P / RT, and likewise Z = P V / RT. */
  function Dimensionless(b: real, P: real, RT: real): real
    requires RT != 0.0
  {
    b * P / RT
  }

  /** The fugacity expression is defined at both compressibilities. */
  predicate FugacitiesDefined(cfg: EOSCfg, Zl: real, Zv: real, B: real) {
    FugacityDefined(ParamsOf(cfg.eos), Zl, B) && FugacityDefined(ParamsOf(cfg.eos), Zv, B)
  }

  /** ln φl - ln φv. */
  function FugacityGap(cfg: EOSCfg, Zl: real, Zv: real, A: real, B: real, lib: Lib): real
    requires FugacitiesDefined(cfg, Zl, Zv, B)
  {
    LogFugacity(cfg, Zl, A, B, lib) - LogFugacity(cfg, Zv, A, B, lib)
  }

  /** The convergence test: the liquid and vapour log-fugacities differ by
      less than the tolerance. */
  predicate EqualFugacity(cfg: EOSCfg, Zl: real, Zv: real, A: real, B: real, lib: Lib) {
    FugacitiesDefined(cfg, Zl, Zv, B) && Abs(FugacityGap(cfg, Zl, Zv, A, B, lib)) < ConvergenceTolerance
  }

  /** The round once three real roots are known: the log-domain guard, the
      convergence test, then the clamped update. */
  function ThreeRootRound(cfg: EOSCfg, iterCfg: EOSCfg, vr: VolumeResult, vl: real, vv: real, T: real, P: real, lib: Lib): (s: Step)
    requires Usable(cfg, lib) && cfg.R > 0.0 && T > 0.0 && P > 0.0 && vr.b > 0.0
    requires iterCfg.eos == cfg.eos
    ensures s.Done? ==> s.result == Ok(P)
    ensures s.Continue? ==> P * 0.8 <= s.next <= P * 1.2
  {
    var RT := MolarEnergy(cfg.R, T);
    var A := DimensionlessA(vr.a, P, RT);
    var B := Dimensionless(vr.b, P, RT);
    var Zl := Dimensionless(P, vl, RT);
    var Zv := Dimensionless(P, vv, RT);
    if Zl <= B || Zv <= B then Continue(P * 0.95)
    else
      PositiveDimensionless(vr.b, P, RT);
      FugacityDefinedAboveCovolume(ParamsOf(cfg.eos), Zl, B);
      FugacityDefinedAboveCovolume(ParamsOf(cfg.eos), Zv, B);
      var gap := FugacityGap(iterCfg, Zl, Zv, A, B, lib);
      if Abs(gap) < ConvergenceTolerance then Done(Ok(P))
      else Continue(P * Clamp(lib.exp(gap)))
  }

  /** What decides a three-root round. With Zl or Zv at or below B the
      pressure is perturbed by 0.95. Otherwise both log-fugacities are
      defined, the round stops exactly when they agree within the tolerance,
      and if not it moves to P clamp(exp(ln φl - ln φv)). */
  lemma ThreeRootDecision(cfg: EOSCfg, iterCfg: EOSCfg, vr: VolumeResult, vl: real, vv: real, T: real, P: real, lib: Lib)
    requires Usable(cfg, lib) && cfg.R > 0.0 && T > 0.0 && P > 0.0 && vr.b > 0.0
    requires iterCfg.eos == cfg.eos
    ensures var RT := MolarEnergy(cfg.R, T);
      var A, B := DimensionlessA(vr.a, P, RT), Dimensionless(vr.b, P, RT);
      var Zl, Zv := Dimensionless(P, vl, RT), Dimensionless(P, vv, RT);
      var s := ThreeRootRound(cfg, iterCfg, vr, vl, vv, T, P, lib);
      && (Zl <= B || Zv <= B ==> s == Continue(P * 0.95))
      && (Zl > B && Zv > B ==> FugacitiesDefined(iterCfg, Zl, Zv, B))
      && (s.Done? <==> Zl > B && Zv > B && EqualFugacity(iterCfg, Zl, Zv, A, B, lib))
      && (Zl > B && Zv > B && FugacitiesDefined(iterCfg, Zl, Zv, B) && !EqualFugacity(iterCfg, Zl, Zv, A, B, lib) ==>
            s == Continue(P * Clamp(lib.exp(FugacityGap(iterCfg, Zl, Zv, A, B, lib)))))
  {
    var RT := MolarEnergy(cfg.R, T);
    var B := Dimensionless(vr.b, P, RT);
    var Zl, Zv := Dimensionless(P, vl, RT), Dimensionless(P, vv, RT);
    if Zl > B && Zv > B {
      PositiveDimensionless(vr.b, P, RT);
      FugacityDefinedAboveCovolume(ParamsOf(cfg.eos), Zl, B);
      FugacityDefinedAboveCovolume(ParamsOf(cfg.eos), Zv, B);
    }
  }

  lemma PositiveDimensionless(b: real, P: real, RT: real)
    requires b > 0.0 && P > 0.0 && RT > 0.0
    ensures Dimensionless(b, P, RT) > 0.0
  {
  }

  /** One pass of the loop body at pressure P. */
  function Round(solve: Solver, cfg: EOSCfg, T: real, P: real, lib: Lib): (s: Step)
    requires Usable(cfg, lib) && MeetsSolverSpec(solve, lib)
    ensures solve(IterationConfig(cfg, T, P)).Err? ==> s == Done(Err(solve(IterationConfig(cfg, T, P)).error))
    ensures s.Done? && s.result.Err? ==> s.result.error == NoRealRoots || solve(IterationConfig(cfg, T, P)) == Err(s.result.error)
    ensures s.Done? && s.result.Ok? ==> s.result.value == P && P > 0.0
    ensures s.Continue? ==> P > 0.0 && s.next > 0.0
  {
    var iterCfg := IterationConfig(cfg, T, P);
    match solve(iterCfg)
    case Err(e) => Done(Err(e))
    case Ok(vr) => VolumesRound(cfg, iterCfg, vr, T, P, lib)
  }

  /** The rest of a round once the volumes are known: no real root stops the
      iteration, one or two move the pressure by 10%, three decide by fugacity. */
  function VolumesRound(cfg: EOSCfg, iterCfg: EOSCfg, vr: VolumeResult, T: real, P: real, lib: Lib): (s: Step)
    requires Usable(cfg, lib) && cfg.R > 0.0 && T > 0.0 && P > 0.0 && vr.b > 0.0
    requires iterCfg.eos == cfg.eos
    ensures s.Done? ==> s.result == Ok(P) || s.result == Err(NoRealRoots)
    ensures s.Continue? ==> s.next > 0.0
  {
    var roots := CleanRoots(vr.volumes);
    if |roots| < 3 then
      if |roots| == 0 then Done(Err(NoRealRoots))
      else if roots[0] < 2.0 * vr.b then Continue(P * 0.9)
      else Continue(P * 1.1)
    else
      ThreeRootRound(cfg, iterCfg, vr, roots[0], roots[|roots| - 1], T, P, lib)
  }

  /** With one or two real roots the round goes on: P falls by 10% when the
      smallest root is below 2b (liquid-like) and rises by 10% otherwise. */
  lemma RoundFewRoots(cfg: EOSCfg, iterCfg: EOSCfg, vr: VolumeResult, T: real, P: real, lib: Lib)
    requires Usable(cfg, lib) && cfg.R > 0.0 && T > 0.0 && P > 0.0 && vr.b > 0.0
    requires iterCfg.eos == cfg.eos && 1 <= |CleanRoots(vr.volumes)| < 3
    ensures VolumesRound(cfg, iterCfg, vr, T, P, lib) == Continue(if CleanRoots(vr.volumes)[0] < 2.0 * vr.b then P * 0.9 else P * 1.1)
  {
  }

  /** With no real root the round stops with the missing-roots error. */
  lemma RoundNoRoots(cfg: EOSCfg, iterCfg: EOSCfg, vr: VolumeResult, T: real, P: real, lib: Lib)
    requires Usable(cfg, lib) && cfg.R > 0.0 && T > 0.0 && P > 0.0 && vr.b > 0.0
    requires iterCfg.eos == cfg.eos && CleanRoots(vr.volumes) == []
    ensures VolumesRound(cfg, iterCfg, vr, T, P, lib) == Done(Err(NoRealRoots))
  {
  }

  /** R T is positive for positive R and T. */
  lemma PositiveEnergy(R: real, T: real)
    requires R > 0.0 && T > 0.0
    ensures MolarEnergy(R, T) > 0.0
  {
  }

  /** Three real roots, whose smallest and largest give Zl, Zv above B, at
      which the two log-fugacities agree within the tolerance. */
  ghost predicate ThreeRootsConverged(cfg: EOSCfg, iterCfg: EOSCfg, vr: VolumeResult, T: real, P: real, lib: Lib)
    requires cfg.R > 0.0 && T > 0.0
  {
    PositiveEnergy(cfg.R, T);
    var roots := CleanRoots(vr.volumes);
    var RT := MolarEnergy(cfg.R, T);
    var A, B := DimensionlessA(vr.a, P, RT), Dimensionless(vr.b, P, RT);
    |roots| == 3 &&
    var Zl, Zv := Dimensionless(P, roots[0], RT), Dimensionless(P, roots[2], RT);
    Zl > B && Zv > B && EqualFugacity(iterCfg, Zl, Zv, A, B, lib)
  }

  /** The round at P has converged: the volumes were found and the three-root
      test passed on them. */
  ghost predicate Converged(solve: Solver, cfg: EOSCfg, T: real, P: real, lib: Lib)
    requires Usable(cfg, lib) && MeetsSolverSpec(solve, lib)
  {
    var iterCfg := IterationConfig(cfg, T, P);
    var res := solve(iterCfg);
    res.Ok? && cfg.R > 0.0 && T > 0.0 && ThreeRootsConverged(cfg, iterCfg, res.value, T, P, lib)
  }

  /** Once the volumes are known, the round stops with its own pressure only
      when the three-root test passes. */
  lemma VolumesRoundOk(cfg: EOSCfg, iterCfg: EOSCfg, vr: VolumeResult, T: real, P: real, lib: Lib)
    requires Usable(cfg, lib) && cfg.R > 0.0 && T > 0.0 && P > 0.0 && vr.b > 0.0
    requires iterCfg.eos == cfg.eos && VolumesRound(cfg, iterCfg, vr, T, P, lib) == Done(Ok(P))
    ensures ThreeRootsConverged(cfg, iterCfg, vr, T, P, lib)
  {
    var roots := CleanRoots(vr.volumes);
    if |roots| == 0 {
      RoundNoRoots(cfg, iterCfg, vr, T, P, lib);
      assert false;
    } else if |roots| < 3 {
      RoundFewRoots(cfg, iterCfg, vr, T, P, lib);
      assert false;
    }
    ThreeRootDecision(cfg, iterCfg, vr, roots[0], roots[2], T, P, lib);
  }

  /** A round stops with its own pressure only when it has converged. */
  lemma RoundOkMeansEqualFugacity(solve: Solver, cfg: EOSCfg, T: real, P: real, lib: Lib)
    requires Usable(cfg, lib) && MeetsSolverSpec(solve, lib) && Round(solve, cfg, T, P, lib) == Done(Ok(P))
    ensures Converged(solve, cfg, T, P, lib)
  {
    var iterCfg := IterationConfig(cfg, T, P);
    var res := solve(iterCfg);
    assert res.Ok?;
    assert Round(solve, cfg, T, P, lib) == VolumesRound(cfg, iterCfg, res.value, T, P, lib);
    VolumesRoundOk(cfg, iterCfg, res.value, T, P, lib);
  }

  /** The round as a function of the pressure, for fixed configuration and temperature. */
  function RoundAt(solve: Solver, cfg: EOSCfg, T: real, lib: Lib): real -> Step
    requires Usable(cfg, lib) && MeetsSolverSpec(solve, lib)
  {
    q => Round(solve, cfg, T, q, lib)
  }

  /** The loop `for range n` over a round function: stop at the first Done,
      otherwise go on with the new pressure; after n rounds, give up. */
  function Run(step: real -> Step, P: real, n: nat): Result<real>
    decreases n
  {
    if n == 0 then Err(NotConverged)
    else
      match step(P)
      case Done(result) => result
      case Continue(next) => Run(step, next, n - 1)
  }

  /** The pressure after k rounds that all went on (the pressure of the stopping
      round if one stopped earlier). */
  function Pressures(step: real -> Step, P: real, k: nat): real
    decreases k
  {
    if k == 0 then P
    else
      match step(P)
      case Done(_) => P
      case Continue(next) => Pressures(step, next, k - 1)
  }

  /** A round that succeeds returns the pressure it was given. */
  ghost predicate ReturnsItsPressure(step: real -> Step) {
    forall q :: step(q).Done? && step(q).result.Ok? ==> step(q).result.value == q
  }

  /** A round that goes on does so from, and to, a positive pressure. */
  ghost predicate ContinuesPositive(step: real -> Step) {
    forall q :: step(q).Continue? ==> q > 0.0 && step(q).next > 0.0
  }

  /** A value the loop returns is a pressure at which a round stops with that value. */
  lemma {:induction false} RunOkIsFixedPoint(step: real -> Step, P: real, n: nat)
    requires ReturnsItsPressure(step) && Run(step, P, n).Ok?
    ensures step(Run(step, P, n).value) == Done(Run(step, P, n))
    decreases n
  {
    if n > 0 {
      match step(P)
      case Done(result) =>
      case Continue(next) => RunOkIsFixedPoint(step, next, n - 1);
    }
  }

  /** An error of the loop is the cap on rounds or the error some round stopped with. */
  lemma {:induction false} RunErrors(step: real -> Step, P: real, n: nat)
    requires Run(step, P, n).Err?
    ensures Run(step, P, n) == Err(NotConverged) || exists q :: step(q) == Done(Run(step, P, n))
    decreases n
  {
    if n > 0 {
      match step(P)
      case Done(result) => assert step(P) == Done(Run(step, P, n));
      case Continue(next) => RunErrors(step, next, n - 1);
    }
  }

  /** If each of the n rounds asks to go on, the loop gives up. */
  lemma {:induction false} RunExhausted(step: real -> Step, P: real, n: nat)
    requires forall k :: 0 <= k < n ==> step(Pressures(step, P, k)).Continue?
    ensures Run(step, P, n) == Err(NotConverged)
    decreases n
  {
    if n > 0 {
      assert step(Pressures(step, P, 0)).Continue?;
      var next := step(P).next;
      forall k | 0 <= k < n - 1
        ensures step(Pressures(step, next, k)).Continue?
      {
        assert Pressures(step, P, k + 1) == Pressures(step, next, k);
      }
      RunExhausted(step, next, n - 1);
    }
  }

  /** One round of the loop, as Run's definition gives it. */
  lemma RunUnfold(step: real -> Step, P: real, n: nat)
    requires n > 0
    ensures step(P).Done? ==> Run(step, P, n) == step(P).result
    ensures step(P).Continue? ==> Run(step, P, n) == Run(step, step(P).next, n - 1)
  {
  }

  /** Every pressure visited after the first is positive. */
  lemma {:induction false} PressuresPositive(step: real -> Step, P: real, k: nat)
    requires ContinuesPositive(step) && k > 0
    requires step(P).Continue? || P > 0.0
    ensures Pressures(step, P, k) > 0.0
    decreases k
  {
    match step(P)
    case Done(_) =>
    case Continue(next) =>
      if k > 1 { PressuresPositive(step, next, k - 1); }
  }

  /** The round of the saturation loop has both properties. */
  lemma RoundProperties(solve: Solver, cfg: EOSCfg, T: real, lib: Lib)
    requires Usable(cfg, lib) && MeetsSolverSpec(solve, lib)
    ensures ReturnsItsPressure(RoundAt(solve, cfg, T, lib)) && ContinuesPositive(RoundAt(solve, cfg, T, lib))
  {
    var step := RoundAt(solve, cfg, T, lib);
    forall q ensures step(q) == Round(solve, cfg, T, q, lib) {
    }
  }

  /** SaturationPressure as a value: the critical pressure at or above the
      critical temperature, otherwise at most MaxRounds rounds from the initial estimate. */
  function SaturationPressureSpec(solve: Solver, cfg: EOSCfg, T: real, lib: Lib): (r: Result<real>)
    requires Usable(cfg, lib) && MeetsSolverSpec(solve, lib)
    ensures T >= cfg.Tc ==> r == Ok(cfg.Pc)
  {
    if T >= cfg.Tc then Ok(cfg.Pc)
    else Run(RoundAt(solve, cfg, T, lib), InitialPressure(cfg, T, lib), MaxRounds)
  }

  /** Below the critical temperature a returned pressure is positive, a round
      at that pressure stops with it, and the two phases' log-fugacities agree
      there within the tolerance. */
  lemma SaturationPressureConverged(solve: Solver, cfg: EOSCfg, T: real, lib: Lib)
    requires Usable(cfg, lib) && MeetsSolverSpec(solve, lib) && T < cfg.Tc && SaturationPressureSpec(solve, cfg, T, lib).Ok?
    ensures var p := SaturationPressureSpec(solve, cfg, T, lib).value;
      p > 0.0 && Round(solve, cfg, T, p, lib) == Done(Ok(p)) && Converged(solve, cfg, T, p, lib)
  {
    var step := RoundAt(solve, cfg, T, lib);
    RoundProperties(solve, cfg, T, lib);
    RunOkIsFixedPoint(step, InitialPressure(cfg, T, lib), MaxRounds);
    var p := SaturationPressureSpec(solve, cfg, T, lib).value;
    assert step(p) == Round(solve, cfg, T, p, lib);
    RoundOkMeansEqualFugacity(solve, cfg, T, p, lib);
  }

  /** Below the critical temperature every error is the cap on rounds, the
      missing-roots error, or an error of SolveForVolume at some pressure. */
  lemma SaturationPressureErrors(solve: Solver, cfg: EOSCfg, T: real, lib: Lib)
    requires Usable(cfg, lib) && MeetsSolverSpec(solve, lib) && T < cfg.Tc && SaturationPressureSpec(solve, cfg, T, lib).Err?
    ensures var e := SaturationPressureSpec(solve, cfg, T, lib).error;
      e == NotConverged || e == NoRealRoots || exists q :: solve(IterationConfig(cfg, T, q)) == Err(e)
  {
    var step := RoundAt(solve, cfg, T, lib);
    var r := SaturationPressureSpec(solve, cfg, T, lib);
    RunErrors(step, InitialPressure(cfg, T, lib), MaxRounds);
    if r != Err(NotConverged) {
      var q :| step(q) == Done(r);
      assert Round(solve, cfg, T, q, lib) == Done(r);
    }
  }

  /** At a temperature at or below 0 (and below Tc) the first round rejects the
      temperature, so the starting pressure plays no part. */
  lemma SaturationPressureNonPositiveTemperature(solve: Solver, cfg: EOSCfg, T: real, lib: Lib)
    requires Usable(cfg, lib) && MeetsSolverSpec(solve, lib) && T <= 0.0 && T < cfg.Tc
    ensures SaturationPressureSpec(solve, cfg, T, lib) == Err(ErrTemp)
  {
    var P := InitialPressure(cfg, T, lib);
    var step := RoundAt(solve, cfg, T, lib);
    assert step(P) == Round(solve, cfg, T, P, lib);
    assert solve(IterationConfig(cfg, T, P)) == Err(ErrTemp);
    RunUnfold(step, P, MaxRounds);
  }

  /** One pass of the loop body of SaturationPressure, on a copy of the
      configuration with P and T replaced: Done for each return statement,
      Continue with the new pressure for each way to the next pass. */
  method Iteration(solve: Solver, cfg: EOSCfg, T: real, P: real, lib: Lib) returns (s: Step)
    requires Usable(cfg, lib) && MeetsSolverSpec(solve, lib)
    ensures s == Round(solve, cfg, T, P, lib)
  {
    var iterCfg := cfg.(P := P, T := T);
    var volRes := solve(iterCfg);
    if volRes.Err? {
      return Done(Err(volRes.error));
    }
    assert Round(solve, cfg, T, P, lib) == VolumesRound(cfg, iterCfg, volRes.value, T, P, lib);
    var roots := Clean(volRes.value);
    if |roots| < 3 {
      if |roots| == 0 {
        return Done(Err(NoRealRoots));
      }
      var V := roots[0];
      var b := volRes.value.b;
      if V < 2.0 * b {
        return Continue(P * 0.9);
      } else {
        return Continue(P * 1.1);
      }
    }
    s := ThreeRootIteration(cfg, iterCfg, volRes.value, roots[0], roots[|roots| - 1], T, P, lib);
  }

  /** The part of the loop body that runs once three real roots are known. */
  method ThreeRootIteration(cfg: EOSCfg, iterCfg: EOSCfg, vr: VolumeResult, vl: real, vv: real, T: real, P: real, lib: Lib) returns (s: Step)
    requires Usable(cfg, lib) && cfg.R > 0.0 && T > 0.0 && P > 0.0 && vr.b > 0.0
    requires iterCfg.eos == cfg.eos
    ensures s == ThreeRootRound(cfg, iterCfg, vr, vl, vv, T, P, lib)
  {
    var RT := MolarEnergy(cfg.R, T);
    var A := DimensionlessA(vr.a, P, RT);
    var B := Dimensionless(vr.b, P, RT);
    var Zl := Dimensionless(P, vl, RT);
    var Zv := Dimensionless(P, vv, RT);
    if Zl <= B || Zv <= B {
      return Continue(P * 0.95);
    }
    PositiveDimensionless(vr.b, P, RT);
    FugacityDefinedAboveCovolume(ParamsOf(cfg.eos), Zl, B);
    FugacityDefinedAboveCovolume(ParamsOf(cfg.eos), Zv, B);
    var phil := LogFugacity(iterCfg, Zl, A, B, lib);
    var phiv := LogFugacity(iterCfg, Zv, A, B, lib);
    if Abs(phil - phiv) < ConvergenceTolerance {
      return Done(Ok(P));
    }
    var ratio := lib.exp(phil - phiv);
    if ratio > 1.2 {
      ratio := 1.2;
    } else if ratio < 0.8 {
      ratio := 0.8;
    }
    return Continue(P * ratio);
  }

  /** SaturationPressure: returns Pc at or above the critical temperature;
      otherwise starts from the Wilson estimate and runs at most MaxRounds
      rounds, returning at the first round that stops. The program is this
      method with the solver SolverOf(AsWritten, lib). */
  method SaturationPressure(solve: Solver, cfg: EOSCfg, T: real, lib: Lib) returns (r: Result<real>)
    requires Usable(cfg, lib) && MeetsSolverSpec(solve, lib)
    ensures r == SaturationPressureSpec(solve, cfg, T, lib)
    ensures T >= cfg.Tc ==> r == Ok(cfg.Pc)
    ensures T < cfg.Tc && r.Ok? ==> r.value > 0.0 && Converged(solve, cfg, T, r.value, lib)
  {
    if T >= cfg.Tc {
      return Ok(cfg.Pc);
    }
    var P := InitialPressure(cfg, T, lib);
    ghost var step := RoundAt(solve, cfg, T, lib);
    for i := 0 to MaxRounds
      invariant Run(step, P, MaxRounds - i) == SaturationPressureSpec(solve, cfg, T, lib)
    {
      var s := Iteration(solve, cfg, T, P, lib);
      RunUnfold(step, P, MaxRounds - i);
      assert step(P) == s;
      match s
      case Done(result) =>
        r := result;
        if r.Ok? { SaturationPressureConverged(solve, cfg, T, lib); }
        return;
      case Continue(next) =>
        P := next;
    }
    return Err(NotConverged);
  }
}
