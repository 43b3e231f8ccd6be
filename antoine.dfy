/** The Antoine vapour-pressure correlation ln P = A - B/(t + C)
    (antoine/antoine.go), valid over a closed temperature range. */
module Antoine {
  import opened Errors
  import opened Numerics

  /** The closed interval of temperatures (°C) over which the constants hold. */
  datatype TempRange = TempRange(low: real, high: real)

  /** The constants of one substance (P in kPa, t in °C), with its descriptive fields. */
  datatype Antoine = Antoine(name: string, formula: string, A: real, B: real, C: real, H: real, range: TempRange, tn: real)
  {
    predicate InRange(t: real) {
      range.low <= t <= range.high
    }

    /** The denominator t + C does not vanish inside the range. */
    ghost predicate Defined() {
      forall t :: InRange(t) ==> t + C != 0.0
    }

    /** LnPSat: ln of the saturation pressure; both ends of the range are accepted. */
    function LnPSat(t: real): (r: Result<real>)
      requires InRange(t) ==> t + C != 0.0
      ensures r.Err? <==> t < range.low || t > range.high
      ensures r.Err? ==> r.error == TempOutOfRange
      ensures r.Ok? ==> (A - r.value) * (t + C) == B
    {
      if t < range.low || t > range.high then Err(TempOutOfRange)
      else Ok(A - B / (t + C))
    }

    /** Pressure: exp(LnPSat(t)); an error of LnPSat is returned unchanged. */
    function Pressure(t: real, lib: Lib): (r: Result<real>)
      requires InRange(t) ==> t + C != 0.0
      requires lib.Valid()
      ensures LnPSat(t).Err? ==> r == Err(LnPSat(t).error)
      ensures r.Ok? <==> LnPSat(t).Ok?
      ensures r.Ok? ==> r.value > 0.0 && lib.log(r.value) == LnPSat(t).value
    {
      match LnPSat(t)
      case Err(e) => Err(e)
      case Ok(lnP) => Ok(lib.exp(lnP))
    }
  }

  /** At the two ends of the range the correlation still answers. */
  lemma EndpointsAccepted(a: Antoine)
    requires a.range.low <= a.range.high && a.Defined()
    ensures a.LnPSat(a.range.low).Ok? && a.LnPSat(a.range.high).Ok?
  {
    assert a.InRange(a.range.low) && a.InRange(a.range.high);
  }
}
