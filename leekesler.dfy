/** The Lee-Kesler generalized correlation tables (lee-kesler/interpolate.go and
    lee-kesler/correlation.go): the bracketing index search, bilinear
    interpolation over a (Tr, Pr) grid, and the choice of base and departure
    tables per property. The tables' contents are data, handed in as values. */
module LeeKesler {
  import opened Errors
  import opened SortLib

  /** A grid of values: values[j][i] is the entry at reduced temperature tr[j]
      and reduced pressure pr[i]. */
  datatype Table = Table(pr: seq<real>, tr: seq<real>, values: seq<seq<real>>)
  {
    /** At least one cell, strictly increasing axes, and one row per Tr of one
        entry per Pr. */
    ghost predicate Valid() {
      && |pr| >= 2 && |tr| >= 2
      && StrictlyIncreasing(pr) && StrictlyIncreasing(tr)
      && |values| == |tr|
      && forall j :: 0 <= j < |values| ==> |values[j]| == |pr|
    }

    /** table.At: the interpolated value at (pr, tr). */
    function At(p: real, t: real): (r: Result<real>)
      requires Valid()
      ensures r.Ok? <==> pr[0] <= p <= pr[|pr| - 1] && tr[0] <= t <= tr[|tr| - 1]
      ensures r.Err? ==> r.error == PrOutOfRange || r.error == TrOutOfRange
    {
      Interpolate(p, t, this)
    }
  }

  function Last(s: seq<real>): real
    requires |s| > 0
  {
    s[|s| - 1]
  }

  /** findIndex: -1 for fewer than two points; otherwise the left end i of the
      interval [arr[i], arr[i+1]] used for interpolation, from the first index
      whose value is at least v (sort.SearchFloat64s). */
  function FindIndex(arr: seq<real>, v: real): (i: int)
    requires Sorted(arr)
    ensures |arr| < 2 ==> i == -1
    ensures |arr| >= 2 ==> 0 <= i <= |arr| - 2
    ensures |arr| >= 2 && v <= arr[0] ==> i == 0
    ensures |arr| >= 2 && v > Last(arr) ==> i == |arr| - 2
    ensures |arr| >= 2 && arr[0] < v <= Last(arr) ==> arr[i] < v <= arr[i + 1]
  {
    if |arr| < 2 then -1
    else
      var k := LowerBound(arr, v);
      if k == |arr| then |arr| - 2
      else if k == 0 then 0
      else k - 1
  }

  /** Inside the range of the axis, v lies in the closed interval findIndex picks. */
  lemma FindIndexBrackets(arr: seq<real>, v: real)
    requires Sorted(arr) && |arr| >= 2 && arr[0] <= v <= Last(arr)
    ensures arr[FindIndex(arr, v)] <= v <= arr[FindIndex(arr, v) + 1]
  {
  }

  /** On a strictly increasing axis an exact hit on an interior or last point
      selects the interval below it. */
  lemma FindIndexExactHit(arr: seq<real>, k: nat)
    requires StrictlyIncreasing(arr) && 1 <= k < |arr|
    ensures FindIndex(arr, arr[k]) == k - 1
  {
    var i := FindIndex(arr, arr[k]);
    assert arr[i] < arr[k] <= arr[i + 1];
  }

  /** The straight-line blend ((x2 - x)/(x2 - x1)) m1 + ((x - x1)/(x2 - x1)) m2. */
  function Lerp(x1: real, x2: real, x: real, m1: real, m2: real): (m: real)
    requires x1 != x2
  {
    ((x2 - x) / (x2 - x1)) * m1 + ((x - x1) / (x2 - x1)) * m2
  }

  /** The blend passes through both end points. */
  lemma LerpEnds(x1: real, x2: real, m1: real, m2: real)
    requires x1 != x2
    ensures Lerp(x1, x2, x1, m1, m2) == m1
    ensures Lerp(x1, x2, x2, m1, m2) == m2
  {
    assert (x2 - x1) / (x2 - x1) == 1.0;
  }

  /** Between its end points the blend stays between the two values. */
  lemma LerpBetween(x1: real, x2: real, x: real, m1: real, m2: real)
    requires x1 < x2 && x1 <= x <= x2
    ensures Min(m1, m2) <= Lerp(x1, x2, x, m1, m2) <= Max(m1, m2)
  {
    var d := x2 - x1;
    var w := (x2 - x) / d;
    UnitWeight(x2 - x, d);
    WeightsSum(x2 - x, x - x1, d);
    LerpAsStep(w, (x - x1) / d, m1, m2);
    ScaleBetween(w, m1 - m2);
  }

  lemma UnitWeight(num: real, d: real)
    requires d > 0.0 && 0.0 <= num <= d
    ensures 0.0 <= num / d <= 1.0
  {
  }

  lemma WeightsSum(a: real, b: real, d: real)
    requires d != 0.0 && a + b == d
    ensures b / d == 1.0 - a / d
  {
    assert a / d + b / d == (a + b) / d;
  }

  lemma LerpAsStep(w: real, u: real, m1: real, m2: real)
    requires u == 1.0 - w
    ensures w * m1 + u * m2 == m2 + w * (m1 - m2)
  {
  }

  lemma ScaleBetween(w: real, k: real)
    requires 0.0 <= w <= 1.0
    ensures k <= 0.0 ==> k <= w * k <= 0.0
    ensures k >= 0.0 ==> 0.0 <= w * k <= k
  {
  }

  function Min(a: real, b: real): real { if a <= b then a else b }
  function Max(a: real, b: real): real { if a <= b then b else a }

  /** The value of the bilinear blend over cell (i, j) of the table. */
  function Bilinear(t: Table, i: nat, j: nat, p: real, tt: real): real
    requires t.Valid() && i + 1 < |t.pr| && j + 1 < |t.tr|
  {
    var x1, x2 := t.pr[i], t.pr[i + 1];
    var y1, y2 := t.tr[j], t.tr[j + 1];
    var m1 := Lerp(x1, x2, p, t.values[j][i], t.values[j][i + 1]);
    var m2 := Lerp(x1, x2, p, t.values[j + 1][i], t.values[j + 1][i + 1]);
    Lerp(y1, y2, tt, m1, m2)
  }

  /** interpolate: the reduced pressure is range-checked first, then the reduced
      temperature (both ends of each axis accepted); inside the grid the value is
      the bilinear blend over the cell findIndex selects on each axis. */
  function Interpolate(p: real, t: real, table: Table): (r: Result<real>)
    requires table.Valid()
    ensures p < table.pr[0] || p > Last(table.pr) ==> r == Err(PrOutOfRange)
    ensures table.pr[0] <= p <= Last(table.pr) && (t < table.tr[0] || t > Last(table.tr)) ==> r == Err(TrOutOfRange)
    ensures r.Ok? <==> table.pr[0] <= p <= Last(table.pr) && table.tr[0] <= t <= Last(table.tr)
    ensures r.Ok? ==> r.value == Bilinear(table, FindIndex(table.pr, p), FindIndex(table.tr, t), p, t)
  {
    if p < table.pr[0] || p > Last(table.pr) then Err(PrOutOfRange)
    else if t < table.tr[0] || t > Last(table.tr) then Err(TrOutOfRange)
    else
      var i := FindIndex(table.pr, p);
      var j := FindIndex(table.tr, t);
      Ok(Bilinear(table, i, j, p, t))
  }

  /** At a grid node the table returns the stored value. */
  lemma {:induction false} InterpolateAtNode(table: Table, a: nat, b: nat)
    requires table.Valid() && a < |table.pr| && b < |table.tr|
    ensures Interpolate(table.pr[a], table.tr[b], table) == Ok(table.values[b][a])
  {
    var p, t := table.pr[a], table.tr[b];
    var i, j := FindIndex(table.pr, p), FindIndex(table.tr, t);
    NodeColumn(table.pr, a);
    NodeColumn(table.tr, b);
    var x1, x2 := table.pr[i], table.pr[i + 1];
    var y1, y2 := table.tr[j], table.tr[j + 1];
    LerpEnds(x1, x2, table.values[j][i], table.values[j][i + 1]);
    LerpEnds(x1, x2, table.values[j + 1][i], table.values[j + 1][i + 1]);
    var m1 := Lerp(x1, x2, p, table.values[j][i], table.values[j][i + 1]);
    var m2 := Lerp(x1, x2, p, table.values[j + 1][i], table.values[j + 1][i + 1]);
    assert m1 == table.values[j][a] && m2 == table.values[j + 1][a];
    LerpEnds(y1, y2, m1, m2);
  }

  /** On a strictly increasing axis, the point at index a is an end of the
      interval findIndex selects for it: the left end for a = 0, the right end otherwise. */
  lemma NodeColumn(arr: seq<real>, a: nat)
    requires StrictlyIncreasing(arr) && |arr| >= 2 && a < |arr|
    ensures a == 0 ==> FindIndex(arr, arr[a]) == 0
    ensures a > 0 ==> FindIndex(arr, arr[a]) == a - 1
  {
    if a > 0 { FindIndexExactHit(arr, a); }
  }

  /** Inside the grid the result lies between the smallest and the largest of
      the four corners of the selected cell. */
  lemma InterpolateWithinCell(table: Table, p: real, t: real)
    requires table.Valid() && Interpolate(p, t, table).Ok?
    ensures var i, j := FindIndex(table.pr, p), FindIndex(table.tr, t);
      var lo := Min(Min(table.values[j][i], table.values[j][i + 1]), Min(table.values[j + 1][i], table.values[j + 1][i + 1]));
      var hi := Max(Max(table.values[j][i], table.values[j][i + 1]), Max(table.values[j + 1][i], table.values[j + 1][i + 1]));
      lo <= Interpolate(p, t, table).value <= hi
  {
    var i, j := FindIndex(table.pr, p), FindIndex(table.tr, t);
    FindIndexBrackets(table.pr, p);
    FindIndexBrackets(table.tr, t);
    var x1, x2 := table.pr[i], table.pr[i + 1];
    var y1, y2 := table.tr[j], table.tr[j + 1];
    LerpBetween(x1, x2, p, table.values[j][i], table.values[j][i + 1]);
    LerpBetween(x1, x2, p, table.values[j + 1][i], table.values[j + 1][i + 1]);
    var m1 := Lerp(x1, x2, p, table.values[j][i], table.values[j][i + 1]);
    var m2 := Lerp(x1, x2, p, table.values[j + 1][i], table.values[j + 1][i + 1]);
    LerpBetween(y1, y2, t, m1, m2);
  }

  // ---------------------------------------------------------------------------
  // Correlations

  /** A Lee-Kesler property code (an int in the source). */
  type Property = int

  const Z: Property := 0
  const H: Property := 1
  const S: Property := 2
  const PHI: Property := 3

  /** The eight tables the source declares as package data. */
  datatype Tables = Tables(z0: Table, z1: Table, h0: Table, h1: Table, s0: Table, s1: Table, phi0: Table, phi1: Table)
  {
    ghost predicate Valid() {
      z0.Valid() && z1.Valid() && h0.Valid() && h1.Valid() && s0.Valid() && s1.Valid() && phi0.Valid() && phi1.Valid()
    }
  }

  /** A base ("0") table and its departure ("1") table. */
  datatype Correlation = Correlation(base: Table, depart: Table)
  {
    ghost predicate Valid() {
      base.Valid() && depart.Valid()
    }

    /** correlation.At: both tables at (pr, tr); the base table's error is
        returned without consulting the departure table. */
    function At(p: real, t: real): (r: Result<(real, real)>)
      requires Valid()
      ensures base.At(p, t).Err? ==> r == Err(base.At(p, t).error)
      ensures base.At(p, t).Ok? && depart.At(p, t).Err? ==> r == Err(depart.At(p, t).error)
      ensures r.Ok? <==> base.At(p, t).Ok? && depart.At(p, t).Ok?
      ensures r.Ok? ==> r.value == (base.At(p, t).value, depart.At(p, t).value)
    {
      match base.At(p, t)
      case Err(e) => Err(e)
      case Ok(v0) =>
        match depart.At(p, t)
        case Err(e) => Err(e)
        case Ok(v1) => Ok((v0, v1))
    }
  }

  /** Correlation(p): the pair of tables for Z, H, S or PHI; any other code
      falls back to the Z pair. */
  function CorrelationOf(prop: Property, tables: Tables): (c: Correlation)
    requires tables.Valid()
    ensures c.Valid()
    ensures prop == H ==> c == Correlation(tables.h0, tables.h1)
    ensures prop == S ==> c == Correlation(tables.s0, tables.s1)
    ensures prop == PHI ==> c == Correlation(tables.phi0, tables.phi1)
    ensures prop != H && prop != S && prop != PHI ==> c == Correlation(tables.z0, tables.z1)
  {
    if prop == Z then Correlation(tables.z0, tables.z1)
    else if prop == H then Correlation(tables.h0, tables.h1)
    else if prop == S then Correlation(tables.s0, tables.s1)
    else if prop == PHI then Correlation(tables.phi0, tables.phi1)
    else Correlation(tables.z0, tables.z1)
  }

  /** A value outside the four codes is treated exactly like Z. */
  lemma UnknownPropertyIsZ(prop: Property, tables: Tables)
    requires tables.Valid() && !(0 <= prop <= 3)
    ensures CorrelationOf(prop, tables) == CorrelationOf(Z, tables)
  {
  }
}
