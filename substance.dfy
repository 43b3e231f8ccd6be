/** A pure species and the operations that hand its properties to the
    correlations (substance/substance.go): the cubic configuration per model,
    the Lee-Kesler combination, the saturated-liquid volume and the Lydersen
    reduced density. */
module Substance {
  import opened Errors
  import opened Numerics
  import opened Cubic
  import LeeKesler
  import Lydersen

  /** Critical temperature (K), pressure (bar), volume (cm³/mol) and compressibility. */
  datatype CriticalProps = CriticalProps(tc: real, pc: real, vc: real, zc: real)

  datatype Substance = Substance(name: string, mw: real, acentric: real, tn: real, critical: CriticalProps)

  /** CubicConfig: the configuration for model t at temperature T, pressure P
      and gas constant R. Tc and Pc come from the substance; van der Waals and
      Redlich-Kwong get acentric factor 0 through their constructors, every
      other model the substance's own. */
  function CubicConfig(s: Substance, t: EOSType, T: real, P: real, R: real): (cfg: EOSCfg)
    ensures cfg.eos == t && cfg.T == T && cfg.P == P && cfg.R == R
    ensures cfg.Tc == s.critical.tc && cfg.Pc == s.critical.pc
    ensures cfg.acentric == if t.VdW? || t.RK? then 0.0 else s.acentric
  {
    var tc := s.critical.tc;
    var pc := s.critical.pc;
    match t
    case VdW => NewVdWCfg(T, P, tc, pc, R)
    case RK => NewRKCfg(T, P, tc, pc, R)
    case SRK => NewSRKCfg(T, P, tc, pc, s.acentric, R)
    case PR => NewPRCfg(T, P, tc, pc, s.acentric, R)
    case Custom(_, _) => EOSCfg(t, T, P, tc, pc, s.acentric, R)
  }

  /** Forcing the acentric factor to 0 for van der Waals and Redlich-Kwong loses
      nothing: for every model, a(T) of the configuration is the one computed
      with the substance's own acentric factor. */
  lemma CubicConfigUsesSubstanceAcentric(s: Substance, t: EOSType, T: real, P: real, R: real, lib: Lib)
    requires lib.Valid() && T > 0.0 && s.critical.tc > 0.0 && s.critical.pc > 0.0
    ensures var cfg := CubicConfig(s, t, T, P, R);
      EosA(cfg, lib) == EosA(cfg.(acentric := s.acentric), lib)
  {
    var cfg := CubicConfig(s, t, T, P, R);
    if t.VdW? || t.RK? {
      AcentricIgnoredByVdWAndRK(t, T / s.critical.tc, 0.0, s.acentric, lib);
    }
  }

  /** Pr = P / Pc. */
  function ReducedPressure(s: Substance, P: real): real
    requires s.critical.pc != 0.0
  {
    P / s.critical.pc
  }

  /** Tr = T / Tc. */
  function ReducedTemperature(s: Substance, T: real): real
    requires s.critical.tc != 0.0
  {
    T / s.critical.tc
  }

  /** The corresponding-states combination v0 + ω v1 of a base and a
      departure value. */
  function AcentricBlend(v: (real, real), omega: real): real {
    v.0 + omega * v.1
  }

  /** LeeKesler: v0 + ω v1 from the property's pair of tables at
      (P/Pc, T/Tc); a lookup error is returned unchanged. */
  function LeeKeslerValue(s: Substance, P: real, T: real, property: LeeKesler.Property, tables: LeeKesler.Tables): (r: Result<real>)
    requires s.critical.pc != 0.0 && s.critical.tc != 0.0 && tables.Valid()
    ensures var c := LeeKesler.CorrelationOf(property, tables).At(ReducedPressure(s, P), ReducedTemperature(s, T));
      && (c.Err? ==> r == Err(c.error))
      && (c.Ok? ==> r == Ok(AcentricBlend(c.value, s.acentric)))
  {
    var c := LeeKesler.CorrelationOf(property, tables).At(ReducedPressure(s, P), ReducedTemperature(s, T));
    if c.Err? then Err(c.error)
    else Ok(AcentricBlend(c.value, s.acentric))
  }

  /** For a simple fluid (ω = 0) a successful Lee-Kesler value is the base
      table's value alone. */
  lemma LeeKeslerSimpleFluid(s: Substance, P: real, T: real, property: LeeKesler.Property, tables: LeeKesler.Tables)
    requires s.critical.pc != 0.0 && s.critical.tc != 0.0 && tables.Valid() && s.acentric == 0.0
    ensures var c := LeeKesler.CorrelationOf(property, tables);
      var pr, tr := ReducedPressure(s, P), ReducedTemperature(s, T);
      c.At(pr, tr).Ok? ==> LeeKeslerValue(s, P, T, property, tables) == Ok(c.base.At(pr, tr).value)
  {
    var c := LeeKesler.CorrelationOf(property, tables);
    var pair := c.At(ReducedPressure(s, P), ReducedTemperature(s, T));
    if pair.Ok? {
      assert AcentricBlend(pair.value, 0.0) == pair.value.0;
    }
  }

  /** Vsat: ErrTemp for T <= 0; otherwise the Rackett correlation (not part of
      this model, passed in) at Tr = T / Tc with the substance's Vc and Zc. */
  function Vsat(s: Substance, T: real, rackett: (real, real, real) -> Result<real>): (r: Result<real>)
    requires T > 0.0 ==> s.critical.tc != 0.0
    ensures T <= 0.0 ==> r == Err(ErrTemp)
    ensures T > 0.0 ==> r == rackett(s.critical.vc, s.critical.zc, T / s.critical.tc)
  {
    if T <= 0.0 then Err(ErrTemp)
    else rackett(s.critical.vc, s.critical.zc, T / s.critical.tc)
  }

  /** ReducedDensity: ErrTemp for T <= 0, checked first; ErrPressure only for
      P < 0 (zero is accepted); otherwise the Lydersen chart at (T/Tc, P/Pc). */
  function ReducedDensity(s: Substance, T: real, P: real, chart: Lydersen.LydersenTable): (r: Result<real>)
    requires T > 0.0 && P >= 0.0 ==> s.critical.tc != 0.0 && s.critical.pc != 0.0
    requires Lydersen.SortedChart(chart.isotherms)
    ensures T <= 0.0 ==> r == Err(ErrTemp)
    ensures T > 0.0 && P < 0.0 ==> r == Err(ErrPressure)
    ensures T > 0.0 && P >= 0.0 ==> r == Lydersen.ReducedDensity(chart, T / s.critical.tc, P / s.critical.pc)
  {
    if T <= 0.0 then Err(ErrTemp)
    else if P < 0.0 then Err(ErrPressure)
    else Lydersen.ReducedDensity(chart, T / s.critical.tc, P / s.critical.pc)
  }
}
