/** The Lydersen generalized liquid-density chart (liquids/lydersen.go): a
    search over isotherms sorted by reduced temperature, then over each
    isotherm's points sorted by reduced pressure, with exact-match shortcuts,
    above/below errors and linear blends between neighbours. The digitized
    chart itself is data and is handed in as a value. */
module Lydersen {
  import opened Errors
  import opened SortLib

  /** One digitized point: reduced pressure and reduced density. */
  datatype Point = Point(pr: real, rhoR: real)

  /** The points of one isotherm, at reduced temperature tr. */
  datatype Isotherm = Isotherm(tr: real, points: seq<Point>)

  /** The chart: the saturation curve (not consulted here) and the isotherms. */
  datatype LydersenTable = LydersenTable(saturation: seq<Point>, isotherms: seq<Isotherm>)

  /** The pressures of the points, the keys sort.Search runs over. */
  function PrKeys(points: seq<Point>): (ks: seq<real>)
    ensures |ks| == |points|
    ensures forall k :: 0 <= k < |points| ==> ks[k] == points[k].pr
  {
    seq(|points|, k requires 0 <= k < |points| => points[k].pr)
  }

  /** The temperatures of the isotherms. */
  function TrKeys(isotherms: seq<Isotherm>): (ks: seq<real>)
    ensures |ks| == |isotherms|
    ensures forall k :: 0 <= k < |isotherms| ==> ks[k] == isotherms[k].tr
  {
    seq(|isotherms|, k requires 0 <= k < |isotherms| => isotherms[k].tr)
  }

  /** y1 + frac (y2 - y1) with frac = (x - x1) / (x2 - x1): the blend both
      levels of the search use. */
  function Blend(x1: real, x2: real, x: real, y1: real, y2: real): real
    requires x1 != x2
  {
    y1 + ((x - x1) / (x2 - x1)) * (y2 - y1)
  }

  /** Strictly between the two abscissae the fraction lies strictly between 0
      and 1, so the blend lies between the two values. */
  lemma BlendFraction(x1: real, x2: real, x: real, y1: real, y2: real)
    requires x1 < x < x2
    ensures 0.0 < (x - x1) / (x2 - x1) < 1.0
    ensures y1 <= y2 ==> y1 <= Blend(x1, x2, x, y1, y2) <= y2
    ensures y2 <= y1 ==> y2 <= Blend(x1, x2, x, y1, y2) <= y1
  {
    var f := (x - x1) / (x2 - x1);
    ProperFraction(x - x1, x2 - x1);
    FractionScales(f, y2 - y1);
  }

  lemma ProperFraction(n: real, d: real)
    requires 0.0 < n < d
    ensures 0.0 < n / d < 1.0
  {
    var f := n / d;
    assert f * d == n;
    if f >= 1.0 {
      assert false;
    }
  }

  lemma FractionScales(f: real, k: real)
    requires 0.0 < f < 1.0
    ensures k >= 0.0 ==> 0.0 <= f * k <= k
    ensures k <= 0.0 ==> k <= f * k <= 0.0
  {
  }

  /** interpolatePr: the reduced density at Pr along one isotherm. */
  function InterpolatePr(points: seq<Point>, Pr: real): (r: Result<real>)
    requires Sorted(PrKeys(points))
    ensures points == [] ==> r == Err(IsothermEmpty)
    ensures points != [] && Pr > points[|points| - 1].pr ==> r == Err(PrAboveIsotherm)
    ensures points != [] && Pr < points[0].pr ==> r == Err(PrBelowIsotherm)
    ensures r.Ok? <==> points != [] && points[0].pr <= Pr <= points[|points| - 1].pr
  {
    if |points| == 0 then Err(IsothermEmpty)
    else
      var idx := LowerBound(PrKeys(points), Pr);
      if idx == |points| then Err(PrAboveIsotherm)
      else if points[idx].pr == Pr then Ok(points[idx].rhoR)
      else if idx == 0 then Err(PrBelowIsotherm)
      else
        var pLow, pHigh := points[idx - 1], points[idx];
        Ok(Blend(pLow.pr, pHigh.pr, Pr, pLow.rhoR, pHigh.rhoR))
  }

  /** A pressure equal to a point's (the first such) returns that point's density,
      the first point included. */
  lemma InterpolatePrExact(points: seq<Point>, Pr: real, k: nat)
    requires Sorted(PrKeys(points)) && k < |points| && points[k].pr == Pr
    requires k == 0 || points[k - 1].pr < Pr
    ensures InterpolatePr(points, Pr) == Ok(points[k].rhoR)
  {
    var idx := LowerBound(PrKeys(points), Pr);
    assert idx == k;
  }

  /** A pressure strictly between two neighbouring points gets their blend. */
  lemma InterpolatePrBetween(points: seq<Point>, Pr: real, k: nat)
    requires Sorted(PrKeys(points)) && 1 <= k < |points| && points[k - 1].pr < Pr < points[k].pr
    ensures InterpolatePr(points, Pr) == Ok(Blend(points[k - 1].pr, points[k].pr, Pr, points[k - 1].rhoR, points[k].rhoR))
  {
    var idx := LowerBound(PrKeys(points), Pr);
    assert idx == k;
  }

  /** The chart's isotherms are sorted by Tr and each one's points by Pr. */
  ghost predicate SortedChart(isotherms: seq<Isotherm>) {
    && Sorted(TrKeys(isotherms))
    && forall k :: 0 <= k < |isotherms| ==> Sorted(PrKeys(isotherms[k].points))
  }

  /** ReducedDensity: the reduced density at (Tr, Pr) from the chart. */
  function ReducedDensity(data: LydersenTable, Tr: real, Pr: real): (r: Result<real>)
    requires SortedChart(data.isotherms)
    ensures data.isotherms == [] ==> r == Err(LydersenEmpty)
    ensures data.isotherms != [] && Tr > data.isotherms[|data.isotherms| - 1].tr ==> r == Err(TrAboveChart)
    ensures data.isotherms != [] && Tr < data.isotherms[0].tr ==> r == Err(TrBelowChart)
  {
    var isotherms := data.isotherms;
    if |isotherms| == 0 then Err(LydersenEmpty)
    else
      var idx := LowerBound(TrKeys(isotherms), Tr);
      if idx == |isotherms| then Err(TrAboveChart)
      else if isotherms[idx].tr == Tr then InterpolatePr(isotherms[idx].points, Pr)
      else if idx == 0 then Err(TrBelowChart)
      else
        var isoLow, isoHigh := isotherms[idx - 1], isotherms[idx];
        match InterpolatePr(isoLow.points, Pr)
        case Err(e) => Err(AtLowerIsotherm(e))
        case Ok(rhoLow) =>
          match InterpolatePr(isoHigh.points, Pr)
          case Err(e) => Err(AtHigherIsotherm(e))
          case Ok(rhoHigh) => Ok(Blend(isoLow.tr, isoHigh.tr, Tr, rhoLow, rhoHigh))
  }

  /** A temperature equal to an isotherm's (the first such) uses that isotherm
      alone; this includes the lowest one, since the exact-match test comes first. */
  lemma ReducedDensityExact(data: LydersenTable, Tr: real, Pr: real, k: nat)
    requires SortedChart(data.isotherms) && k < |data.isotherms| && data.isotherms[k].tr == Tr
    requires k == 0 || data.isotherms[k - 1].tr < Tr
    ensures ReducedDensity(data, Tr, Pr) == InterpolatePr(data.isotherms[k].points, Pr)
  {
    var idx := LowerBound(TrKeys(data.isotherms), Tr);
    assert idx == k;
  }

  /** Strictly between two neighbouring isotherms: an error of the lower one,
      then of the higher one, is passed on wrapped; otherwise the result is the
      blend of the two densities (whose fraction BlendFraction bounds). */
  lemma ReducedDensityBetween(data: LydersenTable, Tr: real, Pr: real, k: nat)
    requires SortedChart(data.isotherms) && 1 <= k < |data.isotherms|
    requires data.isotherms[k - 1].tr < Tr < data.isotherms[k].tr
    ensures var lo, hi := data.isotherms[k - 1], data.isotherms[k];
      var r := ReducedDensity(data, Tr, Pr);
      && (InterpolatePr(lo.points, Pr).Err? ==> r == Err(AtLowerIsotherm(InterpolatePr(lo.points, Pr).error)))
      && (InterpolatePr(lo.points, Pr).Ok? && InterpolatePr(hi.points, Pr).Err? ==>
            r == Err(AtHigherIsotherm(InterpolatePr(hi.points, Pr).error)))
      && (InterpolatePr(lo.points, Pr).Ok? && InterpolatePr(hi.points, Pr).Ok? ==>
            r == Ok(Blend(lo.tr, hi.tr, Tr, InterpolatePr(lo.points, Pr).value, InterpolatePr(hi.points, Pr).value)))
  {
    var idx := LowerBound(TrKeys(data.isotherms), Tr);
    assert idx == k;
  }
}
