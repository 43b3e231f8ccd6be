# zfactor in Dafny

This project models the decision logic of zfactor, a Go library for the
thermodynamics of pure substances, and proves properties of that model.
The library computes compressibility factors, molar volumes and saturation
pressures. The model covers these parts:

- **Cubic equations of state** (`cubic.dfy`). These are van der Waals,
  Redlich-Kwong, Soave-Redlich-Kwong, Peng-Robinson and caller-supplied
  models. The model covers:
  - their constants (σ, ε, Ω, Ψ) and α(Tr, ω);
  - the a and b parameters;
  - the cubic in molar volume that `SolveForVolume` hands to the root solver;
  - the closed-form `Pressure`;
  - the filtering and sorting of the roots in `VolumeResult.Clean`.
- **Saturation pressure** (`saturation.dfy`). This is the log-fugacity
  formula and the 100-round equal-fugacity iteration. The iteration is a
  method with a loop, proved against a recursive specification of the
  rounds. It takes the volume solver as a parameter: the program calls
  the `SolveForVolume` it ships with (`SolverOf(AsWritten, lib)`). Every
  property of the loop holds for any solver that makes `SolveForVolume`'s
  checks and reports its a and b, so it holds for the corrected solver too.
- **Lee-Kesler tables** (`leekesler.dfy`): the bracketing index search,
  bilinear interpolation and the choice of base and departure tables per
  property.
- **Lydersen chart** (`lydersen.dfy`): the two-level search over isotherms
  and points, with its exact-match, above/below and blend cases.
- **Virial equations** (`virial.dfy`): the two-term and three-term forms.
- **Antoine equation** (`antoine.dfy`).
- **Substance** (`substance.dfy`): how a substance's critical properties
  feed the correlations above.
- **State** (`state.dfy`). This covers `NewState` and the checks `DrawPV`
  makes before it plots:
  - the output-extension check;
  - the "did you mean" suggestion, by edit distance;
  - the same-substance check.

  The edit distance is the single-row Levenshtein computation, modelled as
  methods over an `array<int>`.

Some supporting modules are shared by all of the above:

- `errors.dfy` holds one error constructor per error the library returns,
  plus the `Result` and `Option` types.
- `numerics.dfy` makes `math.Sqrt`, `math.Exp`, `math.Log` and the cubic
  root solver fields of a `Lib` value. Proofs use only the axioms
  `Lib.Valid()` states: √x > 0 for x > 0, √x·√x = x, eˣ > 0 and ln eˣ = x.
- `sortlib.dfy` models `sort.Search` and `slices.Sort`.

Arithmetic is exact `real`. Go's `float64` rounding is not modelled.

## Model

| member | source | states |
|---|---|---|
| Numerics.SolveCubic | solve_cubic.go:11-14 | The solver fails with the not-a-cubic error exactly when the leading coefficient is 0; otherwise it returns the library's three roots. |
| SortLib.LowerBound | lee-kesler/interpolate.go:54 | The result is the first index whose key is at least v: every key before it is below v, every key from it on is at least v. This is sort.SearchFloat64s over sorted keys. |
| SortLib.SortAscending | cubic/cubic.go:43 | The output is sorted, has the input's length and is a permutation of the input. |
| Cubic.ParamsOf | cubic/cubic.go:184-280 | The σ, ε, Ω, Ψ of each model, with PR's σ, ε = 1 ± √2. A custom model supplies its own constants. The standard constants have Ω > 0, ε ≥ -1 and Ψ > 0. ε = σ within 1e-9 exactly for van der Waals. |
| Cubic.Alpha | cubic/cubic.go:180-272 | α = 1 for van der Waals and α·√Tr = 1 for Redlich-Kwong. α is a square, so never negative, for SRK and PR. A custom model uses its own α. |
| Cubic.AlphaAtCriticalTemperature | cubic/cubic.go:180-272 | For the four standard models, α(1, ω) = 1 for every ω. |
| Cubic.AcentricIgnoredByVdWAndRK | cubic/cubic.go:180-210 | The α of van der Waals and of Redlich-Kwong does not depend on ω. |
| Cubic.CalculateB | cubic/cubic.go:76-78 | b is positive when Ω, R, Tc and Pc are. |
| Cubic.CalculateA | cubic/cubic.go:81-83 | a is positive when Ψ, α and Pc are positive and R and Tc are nonzero. It is 0 when Ψ, α, R or Tc is 0. |
| Cubic.SolveForVolumeAsWritten | cubic/cubic.go:88-136 | The checks run in the source's order: ErrTemp, ErrPressure, ErrCriticalProp, ErrUniversalConst. The result is Ok exactly when T, P, Tc, Pc and R are positive. It reports a(T) and b, and the roots are those of the cubic built with ideal-gas volume R Tc / Pc, as the code writes it. |
| Cubic.SolveForVolume | cubic/cubic.go:88-136 | The same checks in the same order and the same a and b; b > 0 for positive Ω. The roots are those of the cubic built with ideal-gas volume R T / P. |
| Cubic.Pressure | cubic/cubic.go:142-176 | ErrTemp, then ErrCriticalProp, then ErrUniversalConst; the pressure field is not checked. The result is Ok exactly when T, Tc, Pc and R are positive. Its value is P = RT/(V − b) − a/((V + εb)(V + σb)) with the same a and b as SolveForVolume. The divisions are required to be defined only once the checks pass. |
| Cubic.PressureTimesDenominators | cubic/cubic.go:166-169 | Cleared of denominators, the pressure satisfies P(V − b)(V + εb)(V + σb) = RT(V + εb)(V + σb) − a(V − b). |
| Cubic.VolumeCubicFactored | cubic/cubic.go:116-124 | At every V the cubic with coefficients e = 1, f, g, h equals (V − b)(V + εb)(V + σb) − v_ig(V + εb)(V + σb) + (a/P)(V − b). This is the pressure equation multiplied by both denominators and divided by P. |
| Cubic.CubicRootIffPressure | cubic/cubic.go:116-124 | V is a root of the cubic built with ideal-gas volume RT/P exactly when the pressure formula gives back P at V. |
| Cubic.StateCubicRootsArePressureRoots | cubic/cubic.go:88-176 | Round trip: for valid inputs, V is a root of the cubic SolveForVolume solves exactly when Pressure at V returns the configuration's P. |
| Cubic.AsWrittenCubicMissesStateVolume | cubic/cubic.go:119 | Counterexample for van der Waals with T = 2, P = 5, Tc = Pc = 1, R = 8. Pressure at V = 3 is 5, so V = 3 is a volume of the state. V = 3 is not a root of the cubic as written, but it is a root of the corrected one. |
| Cubic.AsWrittenAgreesAtCriticalRatio | cubic/cubic.go:119 | When T/P = Tc/Pc, the as-written and the corrected SolveForVolume agree. |
| Cubic.NewVdWCfg | cubic/cubic.go:194-204 | The van der Waals model with acentric factor 0; T, P, Tc, Pc and R are copied. |
| Cubic.NewRKCfg | cubic/cubic.go:222-232 | The Redlich-Kwong model with acentric factor 0; the other fields are copied. |
| Cubic.NewSRKCfg | cubic/cubic.go:253-263 | The SRK model with the given acentric factor; the other fields are copied. |
| Cubic.NewPRCfg | cubic/cubic.go:284-294 | The Peng-Robinson model with the given acentric factor; the other fields are copied. |
| Cubic.QualifyingMembers | cubic/cubic.go:38-42 | x is kept exactly when some root has imaginary part below 1e-9 in magnitude and real part x. |
| Cubic.QualifyingAllReal | cubic/cubic.go:38-42 | When every root is nearly real, every root is kept. |
| Cubic.CleanRoots | cubic/cubic.go:36-45 | Sorted, no longer than the input, and a permutation of the kept real parts. |
| Cubic.Clean | cubic/cubic.go:36-45 | The loop's result equals CleanRoots of the three roots. It is sorted and has at most 3 entries. It contains x exactly when some root is nearly real with real part x. |
| Saturation.LogFugacity | cubic/saturation.go:11-31 | Without attraction (A = 0) both forms of the correction vanish, and ln φ = Z − 1 − ln(Z − B). |
| Saturation.LogFugacityVdW | cubic/saturation.go:11-31 | For van der Waals (ε = σ), ln φ = Z − 1 − ln(Z − B) − A/Z. |
| Saturation.LogFugacityNonDegenerate | cubic/saturation.go:11-31 | For RK, SRK and PR, ln φ = Z − 1 − ln(Z − B) + A/(B(ε − σ)) · ln((Z + σB)/(Z + εB)). |
| Saturation.FugacityDefinedAboveCovolume | cubic/saturation.go:100-109 | Once Zl, Zv > B > 0, every denominator of the fugacity formula is nonzero for the admissible constants. |
| Saturation.Clamp | cubic/saturation.go:119-128 | The damped ratio lies in [0.8, 1.2]. It equals the ratio inside that range and the nearer bound outside it. |
| Saturation.IterationConfig | cubic/saturation.go:46-48 | Each round's configuration has the round's P and the given T; every other field is the caller's. |
| Saturation.WilsonGuess | cubic/saturation.go:40-42 | The Wilson starting pressure Pc·exp(5.373(1 + ω)(1 − 1/Tr)) is positive. |
| Saturation.InitialPressure | cubic/saturation.go:40-42 | For 0 < T < Tc and Pc > 0 the starting pressure is positive. |
| Saturation.SolveVolumes | cubic/saturation.go:51-54 | Both versions of SolveForVolume fail exactly when one of its input checks fails, with that check's error. On success T, Tc, Pc, R and P are positive, a and b are the configuration's, and b > 0 when Ω > 0. |
| Saturation.SolverOf | cubic/saturation.go:51-54 | Both versions of SolveForVolume, as functions of the round's configuration, meet what the loop relies on (MeetsSolverSpec). |
| Saturation.ThreeRootRound | cubic/saturation.go:89-128 | When the round stops, it returns P. When it continues, the next pressure is within [0.8 P, 1.2 P]. |
| Saturation.ThreeRootDecision | cubic/saturation.go:89-128 | If Zl ≤ B or Zv ≤ B, the round continues at 0.95 P. Otherwise both log-fugacities are defined. The round stops exactly when \|ln φl − ln φv\| < 1e-8. If it does not stop, it continues at P · clamp(exp(ln φl − ln φv)). |
| Saturation.Round | cubic/saturation.go:46-128 | For any solver meeting MeetsSolverSpec: a solver error ends the iteration with that error. The only other error is NoRealRoots. Success returns the round's own positive P. A continuing round goes from and to a positive pressure. |
| Saturation.VolumesRound | cubic/saturation.go:57-128 | Once the volumes are known, a round stops only with the round's own P or with NoRealRoots. A continuing round moves to a positive pressure. |
| Saturation.RoundFewRoots | cubic/saturation.go:60-86 | With one or two kept roots, P is scaled by 0.9 if the smallest root is below 2b, and by 1.1 otherwise. |
| Saturation.RoundNoRoots | cubic/saturation.go:61-63 | With no kept root the iteration ends with NoRealRoots. |
| Saturation.VolumesRoundOk | cubic/saturation.go:56-114 | Once the volumes are known, a round that returns its own P had three kept roots. At the smallest and largest, Zl and Zv exceed B and the log-fugacities agree within 1e-8. |
| Saturation.RoundOkMeansEqualFugacity | cubic/saturation.go:46-114 | A round that returns its own P has converged there. The solver succeeded, three roots were kept, Zl and Zv exceed B, and \|ln φl − ln φv\| < 1e-8. |
| Saturation.RoundProperties | cubic/saturation.go:46-128 | A round that succeeds returns the pressure it was given. A round that goes on does so from, and to, a positive pressure. |
| Saturation.RunExhausted | cubic/saturation.go:44-131 | When every one of the rounds continues, the result is NotConverged. |
| Saturation.RunOkIsFixedPoint | cubic/saturation.go:112-114 | A value the loop returns is a pressure at which a round stops with that value. |
| Saturation.RunErrors | cubic/saturation.go:44-131 | An error of the loop is NotConverged or the error some round stopped with. |
| Saturation.SaturationPressureSpec | cubic/saturation.go:35-38 | At or above Tc the result is Pc. |
| Saturation.SaturationPressureConverged | cubic/saturation.go:35-132 | Below Tc, a successful result p is positive and a round at p stops with p. At p the solver succeeds, three roots are kept, Zl and Zv exceed B, and \|ln φl − ln φv\| < 1e-8. |
| Saturation.SaturationPressureErrors | cubic/saturation.go:35-132 | Below Tc, an error is NotConverged, NoRealRoots or an error the solver returns at some pressure. |
| Saturation.SaturationPressureNonPositiveTemperature | cubic/saturation.go:35-54 | For T ≤ 0 below Tc the result is ErrTemp, whatever the starting pressure. |
| Saturation.Iteration | cubic/saturation.go:46-128 | One pass of the loop body computes exactly Round. |
| Saturation.ThreeRootIteration | cubic/saturation.go:89-128 | The three-root part of the loop body computes exactly ThreeRootRound. |
| Saturation.SaturationPressure | cubic/saturation.go:35-132 | The for-loop method returns SaturationPressureSpec. At or above Tc it returns Pc. Below Tc, success is a positive pressure at which a round converges: the solver succeeds, three roots are kept, Zl and Zv exceed B, and \|ln φl − ln φv\| < 1e-8. |
| LeeKesler.Table.At | lee-kesler/interpolate.go:14-16 | Ok exactly when pr and tr lie within both axes, the ends included. Every error is PrOutOfRange or TrOutOfRange. |
| LeeKesler.FindIndex | lee-kesler/interpolate.go:50-64 | −1 for fewer than two points; otherwise a cell index in [0, n − 2]. Values at or below the first point give 0 and values above the last give n − 2. Otherwise arr[i] < v ≤ arr[i + 1]. |
| LeeKesler.FindIndexBrackets | lee-kesler/interpolate.go:50-64 | Inside the axis, the chosen cell brackets v. |
| LeeKesler.FindIndexExactHit | lee-kesler/interpolate.go:54-63 | At a grid point k ≥ 1 the cell is the one ending at k. |
| LeeKesler.Interpolate | lee-kesler/interpolate.go:20-48 | PrOutOfRange first, then TrOutOfRange. The result is Ok exactly inside both axes, and its value is the bilinear blend over the bracketing cell. |
| LeeKesler.InterpolateAtNode | lee-kesler/interpolate.go:20-48 | At a grid node the table returns the stored value. |
| LeeKesler.InterpolateWithinCell | lee-kesler/interpolate.go:41-44 | The interpolated value lies between the least and the greatest of the cell's four corners. |
| LeeKesler.LerpBetween | lee-kesler/interpolate.go:41-44 | A one-axis blend lies between its two end values. |
| LeeKesler.LerpEnds | lee-kesler/interpolate.go:41-44 | At the ends, the one-axis blend gives the end values. |
| LeeKesler.Correlation.At | lee-kesler/correlation.go:43-53 | The base table's error is returned first, then the departure table's. Otherwise the result is the pair of values. |
| LeeKesler.CorrelationOf | lee-kesler/correlation.go:25-39 | Z, H, S and PHI select their table pairs; any other code selects the Z pair. |
| LeeKesler.UnknownPropertyIsZ | lee-kesler/correlation.go:35-37 | A code outside 0..3 behaves exactly like Z. |
| Lydersen.InterpolatePr | liquids/lydersen.go:79-111 | IsothermEmpty for no points, PrAboveIsotherm above the last point, PrBelowIsotherm below the first. The result is Ok exactly within the isotherm's range. |
| Lydersen.InterpolatePrExact | liquids/lydersen.go:94-97 | A pressure equal to a point's returns that point's density; the first point is included. |
| Lydersen.InterpolatePrBetween | liquids/lydersen.go:104-110 | Strictly between two neighbouring points, the result is their linear blend. |
| Lydersen.BlendFraction | liquids/lydersen.go:74-75 | Strictly inside an interval the fraction is in (0, 1), so the blend lies between the two values. |
| Lydersen.ReducedDensity | liquids/lydersen.go:32-76 | LydersenEmpty for no isotherms, TrAboveChart above the last isotherm, TrBelowChart below the first. |
| Lydersen.ReducedDensityExact | liquids/lydersen.go:49-52 | A temperature equal to an isotherm's uses that isotherm alone, the lowest included. |
| Lydersen.ReducedDensityBetween | liquids/lydersen.go:59-75 | Between two isotherms, the lower isotherm's error comes first, wrapped, then the higher one's. Otherwise the result is the blend of the two densities. |
| Virial.TwoTermInputError | virial/virial.go:10-24 | No error exactly when 0 < P ≤ 15, T > 0, R > 0 and B ≠ 0. |
| Virial.SolveForVolumeTwoTerm | virial/virial.go:9-27 | The errors in order: ErrPressure, ErrHighPressureTwoTerm above 15 bar, ErrTemp, ErrUniversalConst, ErrVirialCoeff. On success, (V − B)·P = R T. |
| Virial.CompressibilityTwoTerm | virial/virial.go:55-73 | The same errors in the same order. On success, (Z − 1)·R T = B P. |
| Virial.TwoTermConsistent | virial/virial.go:9-73 | For valid inputs, P V / (R T) of the two-term volume equals the two-term Z. |
| Virial.IsopropanolTwoTerm | virial/virial.go:9-73 | For T = 473.15 K, P = 10 bar, R = 83.14 and B = −338, V = 3595.7691 and Z ≈ 0.9141. |
| Virial.SolveForVolumeThreeTerm | virial/virial.go:31-51 | ErrPressure, ErrTemp, ErrUniversalConst, then ErrVirialCoeff when B or C is 0. Otherwise the roots of (P/RT)V³ − V² − BV − C. |
| Virial.CompressibilityThreeTerm | virial/virial.go:77-86 | ErrVolume for V ≤ 0, then ErrVirialCoeff. On success, Z·V² = V² + BV + C. |
| Virial.ThreeTermRootsMatchCompressibility | virial/virial.go:31-86 | For V > 0, V is a root of the three-term cubic exactly when the three-term Z at V equals P V / (R T). |
| Antoine.Antoine.LnPSat | antoine/antoine.go:29-34 | An error exactly outside [low, high], the endpoints being accepted. On success, (A − ln P)(t + C) = B. |
| Antoine.Antoine.Pressure | antoine/antoine.go:38-44 | LnPSat's error is passed on. On success the pressure is positive and its logarithm is LnPSat. |
| Antoine.EndpointsAccepted | antoine/antoine.go:30-33 | Both ends of the temperature range are accepted. |
| Substance.CubicConfig | substance/substance.go:52-77 | The model, T, P and R are as given, and Tc and Pc are the substance's. The acentric factor is 0 for VdW and RK and the substance's for every other model. |
| Substance.CubicConfigUsesSubstanceAcentric | substance/substance.go:57-60 | Zeroing ω for VdW and RK does not change a(T), so every model's a(T) is the one computed with the substance's own ω. |
| Substance.LeeKeslerValue | substance/substance.go:30-45 | A lookup error at (P/Pc, T/Tc) is returned unchanged. Otherwise the result is v0 + ω v1. |
| Substance.LeeKeslerSimpleFluid | substance/substance.go:30-45 | For ω = 0, a successful value is the base table's value. |
| Substance.Vsat | substance/substance.go:79-88 | ErrTemp for T ≤ 0. Otherwise the Rackett correlation at (Vc, Zc, T/Tc). |
| Substance.ReducedDensity | substance/substance.go:94-106 | ErrTemp for T ≤ 0, then ErrPressure only for P < 0. Otherwise the Lydersen chart at (T/Tc, P/Pc). |
| State.NewState | state/state.go:72-84 | ErrTemp for t ≤ 0, checked before ErrPressure for p ≤ 0. Ok exactly when both are positive, with the fields unchanged. |
| State.ValidExtsShape | state/state.go:21-31 | Every accepted extension starts with '.' and has 2 to 5 runes. |
| State.Ext | state/state.go:137 | The extension is a suffix of the path. If non-empty, it starts at a '.' after which the path has no '.' and no '/'. It is empty exactly when the last path element has no '.'. |
| State.Stem | state/state.go:148 | The stem followed by the extension is the output. |
| State.DistanceToItself | state/state.go:459-485 | The edit distance from a string to itself is 0. |
| State.DistanceAtLeastLengthGap | state/state.go:459-485 | The edit distance is at least the difference in lengths. |
| State.DistanceAtMostLongerLength | state/state.go:459-485 | The edit distance is at most the longer length. |
| State.AdvanceColumn | state/state.go:469-483 | One pass of the inner loop turns the row holding column j − 1 of the distance table into column j. |
| State.Levenshtein | state/state.go:459-485 | The rolling-row computation returns the unit-cost edit distance. It returns \|s2\| when s1 is empty and \|s1\| when s2 is empty. |
| State.ClosestExtension | state/state.go:139-147 | A non-empty result is an accepted extension at minimal edit distance from ext. For any extension shorter than the largest int, the result is non-empty. |
| State.VerifySubstances | state/state.go:445-457 | Ok exactly when every state has the first state's substance name, and then it is that name; otherwise SubstanceMismatch. |
| State.CheckDrawPV | state/state.go:130-154 | A missing configuration, then a missing model, is rejected before the file name is examined. An unaccepted extension is rejected with the stem followed by a nearest accepted extension. A substance mismatch is reported wrapped. Otherwise the result is the shared substance name. |

## Left out

- The numeric body of the cubic solver (solve_cubic.go:16-63) is not modelled: Cardano's formulas, `math.Cbrt`, `math.Acos` and complex powers. The roots are an uninterpreted field of `Lib`; only the a = 0 guard is modelled.
- `math.Sqrt`, `math.Exp` and `math.Log` are uninterpreted, with the four axioms of `Lib.Valid()`. `math.Pow` is not needed by any modelled member.
- Floating-point rounding, Inf and NaN are not modelled. Where Go would divide by zero and carry on with Inf or NaN, the model asks its caller for a nonzero divisor:
  - `Cubic.Pressure`: V ≠ b and (V + εb)(V + σb) ≠ 0, once its input checks pass;
  - `Antoine.Antoine.LnPSat`: t + C ≠ 0 inside the range;
  - the `Substance` functions: Tc ≠ 0 and Pc ≠ 0.
- Saturation.SaturationPressure: requires the model's constants to be admissible (Ω > 0, ε ≥ −1). Every standard model meets this. A custom model that does not could reach a log or division at zero, which Go evaluates in floating point.
- Saturation.InitialPressure: 1/Tr is undefined when T = 0 or Tc = 0, and the model starts from 0 there. Go evaluates it in floating point; for T = 0 and 1 + ω > 0 its guess is Pc·exp(−Inf) = 0. For every other T the guess is finite and the model computes it. Below Tc both cases have T ≤ 0, so the first round fails with ErrTemp whatever the start (Saturation.SaturationPressureNonPositiveTemperature).
- Substance.Vsat: the Rackett correlation (liquids/rackett.go) is not part of this model. It is a function parameter.
- The Lee-Kesler tables and the digitized Lydersen chart are data (lee-kesler tables, liquids data files). They are parameters, with their sortedness as a precondition.
- State.VerifySubstances: Go indexes `states[0]` and panics on an empty list; the model requires a non-empty list.
- State.CheckDrawPV: covers the checks before plotting and returns the substance name. The plotting itself is not modelled (state/state.go:155-440): gonum rendering, colours and labels, file saving, `os.Getwd` and printing.
- State.ClosestExtension: Go ranges over a map, whose order is unspecified. The model takes the extensions in an arbitrary order, so ties may resolve to any nearest extension.
- Error messages are not modelled. Each error is a constructor of `Errors.Error`, keeping wrapped causes but not the formatted text.
- `String()` methods, the abbott package, the scripts, `main.py` and `examples/main.go` are not part of this model.

## Findings

| source | as written | input that shows it | evidently intended | confidence | as-written member | corrected member |
|---|---|---|---|---|---|---|
| cubic/cubic.go:119 | The cubic passed to the solver uses the ideal-gas volume `v_ig := R * Tc / Pc`, evaluated at the critical point. | Van der Waals with T = 2, P = 5, Tc = Pc = 1 and R = 8. Pressure(V = 3) = 5, yet V = 3 is not a root of the as-written cubic, which takes the value −43.2 there. | `v_ig := R * T / P`, so that the roots are the volumes at which `Pressure` returns P. | not executed | Cubic.SolveForVolumeAsWritten, Cubic.AsWrittenCubicMissesStateVolume | Cubic.SolveForVolume, Cubic.StateCubicRootsArePressureRoots |

The rest of the model uses the corrected `Cubic.SolveForVolume`. The
saturation iteration takes the solver as a parameter. The program is
`Saturation.SaturationPressure` with `SolverOf(AsWritten, lib)`, and
every property of the loop is proved for both versions. The two versions agree whenever
T/P = Tc/Pc (`Cubic.AsWrittenAgreesAtCriticalRatio`).
