/** Thermodynamic states and the checks DrawPV makes before it plots
    (state/state.go): state validation, the output-extension check with its
    "did you mean" suggestion by edit distance, and the same-substance check.
    Strings are sequences of runes. */
module State {
  import opened Errors
  import Cubic
  import Substance

  /** A state of a substance at a temperature (K) and pressure (bar). */
  datatype State = State(substance: Substance.Substance, temperature: real, pressure: real)

  /** NewState: ErrTemp for t <= 0, checked first, then ErrPressure for
      p <= 0; otherwise the state holds exactly the given values. */
  function NewState(s: Substance.Substance, t: real, p: real): (r: Result<State>)
    ensures t <= 0.0 ==> r == Err(ErrTemp)
    ensures t > 0.0 && p <= 0.0 ==> r == Err(ErrPressure)
    ensures r.Ok? <==> t > 0.0 && p > 0.0
    ensures r.Ok? ==> r.value.substance == s && r.value.temperature == t && r.value.pressure == p
  {
    if t <= 0.0 then Err(ErrTemp)
    else if p <= 0.0 then Err(ErrPressure)
    else Ok(State(s, t, p))
  }

  // ---------------------------------------------------------------------
  // Output file extensions

  /** The extensions the plot writer accepts. */
  const ValidExts: set<string> := {".eps", ".jpg", ".jpeg", ".pdf", ".png", ".svg", ".tex", ".tif", ".tiff"}

  /** Every accepted extension starts with a dot and is at most five runes long. */
  lemma ValidExtsShape(v: string)
    requires v in ValidExts
    ensures 2 <= |v| <= 5 && v[0] == '.'
  {
  }

  /** The scan of filepath.Ext from index i down: -1 when it reaches a '/'
      or the start of the path first, otherwise the index of the '.' found. */
  function ExtStart(path: string, i: int): (k: int)
    requires -1 <= i < |path|
    ensures -1 <= k <= i
    ensures k >= 0 ==> path[k] == '.' && forall q :: k < q <= i ==> path[q] != '.' && path[q] != '/'
    ensures k == -1 ==> forall q :: 0 <= q <= i && (forall r :: q < r <= i ==> path[r] != '/') ==> path[q] != '.'
    decreases i + 1
  {
    if i < 0 || path[i] == '/' then -1
    else if path[i] == '.' then i
    else ExtStart(path, i - 1)
  }

  /** filepath.Ext: the suffix of the path from the last '.' of its final
      element, or empty when that element has no '.'. */
  function Ext(path: string): (e: string)
    ensures |e| <= |path|
    ensures e == path[|path| - |e|..]
    ensures e != [] ==> e[0] == '.' && forall q :: |path| - |e| < q < |path| ==> path[q] != '.' && path[q] != '/'
    ensures e == [] ==> forall q :: 0 <= q < |path| && (forall r :: q < r < |path| ==> path[r] != '/') ==> path[q] != '.'
  {
    var k := ExtStart(path, |path| - 1);
    if k < 0 then [] else path[k..]
  }

  /** The part of the output before its extension. */
  function Stem(output: string): (stem: string)
    ensures stem + Ext(output) == output
  {
    output[..|output| - |Ext(output)|]
  }

  // ---------------------------------------------------------------------
  // Edit distance

  /** The least of three. */
  function Min3(x: int, y: int, z: int): int
  {
    if x <= y && x <= z then x else if y <= z then y else z
  }

  /** The cost of matching rune i - 1 of a with rune j - 1 of b: 0 when
      they are equal, 1 for a substitution. */
  function Cost(a: string, b: string, i: nat, j: nat): nat
    requires 0 < i <= |a| && 0 < j <= |b|
  {
    if a[i - 1] == b[j - 1] then 0 else 1
  }

  /** The unit-cost edit distance (insertions, deletions, substitutions)
      between the first i runes of a and the first j runes of b. */
  function Distance(a: string, b: string, i: nat, j: nat): nat
    requires i <= |a| && j <= |b|
    decreases i + j
  {
    if i == 0 then j
    else if j == 0 then i
    else Min3(Distance(a, b, i, j - 1) + 1,
              Distance(a, b, i - 1, j) + 1,
              Distance(a, b, i - 1, j - 1) + Cost(a, b, i, j))
  }

  /** The edit distance between two whole strings. */
  function EditDistance(a: string, b: string): nat {
    Distance(a, b, |a|, |b|)
  }

  /** A prefix is at distance 0 from itself. */
  lemma {:induction false} DistanceToItself(a: string, i: nat)
    requires i <= |a|
    ensures Distance(a, a, i, i) == 0
  {
    if i > 0 {
      DistanceToItself(a, i - 1);
    }
  }

  /** |i - j|. */
  function Gap(i: int, j: int): nat {
    if i <= j then j - i else i - j
  }

  /** The distance is at least the difference in length. */
  lemma {:induction false} DistanceAtLeastLengthGap(a: string, b: string, i: nat, j: nat)
    requires i <= |a| && j <= |b|
    ensures Distance(a, b, i, j) >= Gap(i, j)
    decreases i + j
  {
    if i > 0 && j > 0 {
      DistanceAtLeastLengthGap(a, b, i, j - 1);
      DistanceAtLeastLengthGap(a, b, i - 1, j);
      DistanceAtLeastLengthGap(a, b, i - 1, j - 1);
      GapBelowMin(Distance(a, b, i, j - 1), Distance(a, b, i - 1, j), Distance(a, b, i - 1, j - 1), Cost(a, b, i, j), i, j);
    }
  }

  /** If each of the three neighbours is at least its own gap, the minimum
      the recurrence takes is at least the gap at (i, j). */
  lemma GapBelowMin(left: int, up: int, diag: int, cost: nat, i: int, j: int)
    requires left >= Gap(i, j - 1) && up >= Gap(i - 1, j) && diag >= Gap(i - 1, j - 1)
    ensures Min3(left + 1, up + 1, diag + cost) >= Gap(i, j)
  {
  }

  /** The distance is at most the longer length: substitute along the
      shorter, then insert or delete the rest. */
  lemma {:induction false} DistanceAtMostLongerLength(a: string, b: string, i: nat, j: nat)
    requires i <= |a| && j <= |b|
    ensures Distance(a, b, i, j) <= if i <= j then j else i
    decreases i + j
  {
    if i > 0 && j > 0 {
      DistanceAtMostLongerLength(a, b, i - 1, j - 1);
    }
  }

  /** One step of the recurrence, for i, j > 0. */
  lemma DistanceStep(a: string, b: string, i: nat, j: nat)
    requires 0 < i <= |a| && 0 < j <= |b|
    ensures Distance(a, b, i, j) == Min3(Distance(a, b, i, j - 1) + 1, Distance(a, b, i - 1, j) + 1, Distance(a, b, i - 1, j - 1) + Cost(a, b, i, j))
  {
  }

  /** The first len entries of column j of the distance table: the distances
      from the prefixes of a of length 0 .. len - 1 to the first j runes of b. */
  function Column(a: string, b: string, j: nat, len: nat): (col: seq<nat>)
    requires j <= |b| && len <= |a| + 1
    ensures |col| == len
  {
    if len == 0 then [] else Column(a, b, j, len - 1) + [Distance(a, b, len - 1, j)]
  }

  /** Entry k of a column is the distance for (k, j). */
  lemma {:induction false} ColumnAt(a: string, b: string, j: nat, len: nat, k: nat)
    requires j <= |b| && k < len <= |a| + 1
    ensures Column(a, b, j, len)[k] == Distance(a, b, k, j)
  {
    if k < len - 1 {
      ColumnAt(a, b, j, len - 1, k);
    }
  }

  /** Column 0 counts deletions: entry k is k. */
  lemma FirstColumn(a: string, b: string, col: seq<nat>)
    requires col == Column(a, b, 0, |a| + 1)
    ensures forall k :: 0 <= k < |col| ==> col[k] == k
  {
    forall k | 0 <= k < |col|
      ensures col[k] == k
    {
      ColumnAt(a, b, 0, |a| + 1, k);
    }
  }

  /** Two neighbouring entries of a full column. */
  lemma ColumnPair(a: string, b: string, j: nat, col: seq<nat>, i: nat)
    requires 0 < i <= |a| && j <= |b| && col == Column(a, b, j, |a| + 1)
    ensures col[i] == Distance(a, b, i, j) && col[i - 1] == Distance(a, b, i - 1, j)
  {
    ColumnAt(a, b, j, |a| + 1, i);
    ColumnAt(a, b, j, |a| + 1, i - 1);
  }

  /** The recurrence read on two neighbouring columns: entry i of column j
      from entries i and i - 1 of column j - 1 and entry i - 1 of column j. */
  lemma ColumnStep(a: string, b: string, i: nat, j: nat, cost: nat, before: seq<nat>, after: seq<nat>)
    requires 0 < i <= |a| && 0 < j <= |b|
    requires cost == Cost(a, b, i, j)
    requires before == Column(a, b, j - 1, |a| + 1) && after == Column(a, b, j, |a| + 1)
    ensures after[i] == Min3(before[i] + 1, after[i - 1] + 1, before[i - 1] + cost)
  {
    ColumnPair(a, b, j - 1, before, i);
    ColumnPair(a, b, j, after, i);
    DistanceStep(a, b, i, j);
  }

  /** One column of the rolling row: from the distances for column j - 1 to
      those for column j. Before the update at position i, row[i] holds the
      distance for (i, j - 1) and prev the one for (i - 1, j); the entry for
      (i - 1, j) is then written one position behind. */
  method AdvanceColumn(row: array<int>, s1: string, s2: string, j: nat)
    requires 0 < j <= |s2| && row.Length == |s1| + 1
    requires row[..] == Column(s1, s2, j - 1, |s1| + 1)
    modifies row
    ensures row[..] == Column(s1, s2, j, |s1| + 1)
  {
    var n := |s1|;
    ghost var before := Column(s1, s2, j - 1, n + 1);
    ghost var after := Column(s1, s2, j, n + 1);
    var prev := j;
    ColumnAt(s1, s2, j, n + 1, 0);
    var i := 1;
    while i <= n
      invariant 1 <= i <= n + 1
      invariant forall k :: 0 <= k < i - 1 ==> row[k] == after[k]
      invariant forall k :: i - 1 <= k <= n ==> row[k] == before[k]
      invariant prev == after[i - 1]
    {
      var cost := 0;
      if s1[i - 1] != s2[j - 1] {
        cost := 1;
      }
      ColumnStep(s1, s2, i, j, cost, before, after);
      var current := Min3(row[i] + 1, prev + 1, row[i - 1] + cost);
      row[i - 1] := prev;
      prev := current;
      i := i + 1;
    }
    row[n] := prev;
  }

  /** levenshtein: the edit distance of s1 and s2 computed with a single
      rolling row (see AdvanceColumn). */
  method Levenshtein(s1: string, s2: string) returns (d: int)
    ensures d == EditDistance(s1, s2)
    ensures |s1| == 0 ==> d == |s2|
    ensures |s2| == 0 ==> d == |s1|
  {
    var n, m := |s1|, |s2|;
    if n == 0 {
      return m;
    }
    if m == 0 {
      return n;
    }
    var row := new int[n + 1];
    var i := 0;
    while i <= n
      invariant 0 <= i <= n + 1
      invariant forall k :: 0 <= k < i ==> row[k] == k
    {
      row[i] := i;
      i := i + 1;
    }
    FirstColumn(s1, s2, Column(s1, s2, 0, n + 1));
    assert row[..] == Column(s1, s2, 0, n + 1);
    var j := 1;
    while j <= m
      invariant 1 <= j <= m + 1
      invariant row[..] == Column(s1, s2, j - 1, n + 1)
    {
      AdvanceColumn(row, s1, s2, j);
      j := j + 1;
    }
    ColumnAt(s1, s2, m, n + 1, n);
    return row[n];
  }

  // ---------------------------------------------------------------------
  // The "did you mean" suggestion

  /** The largest Go int on a 64-bit platform, the starting minimum. */
  const MaxInt: int := 0x7FFF_FFFF_FFFF_FFFF

  /** c is an accepted extension at minimal edit distance from ext. */
  ghost predicate Nearest(ext: string, c: string) {
    && c in ValidExts
    && forall v :: v in ValidExts ==> EditDistance(ext, c) <= EditDistance(ext, v)
  }

  /** Every accepted extension is within MaxInt of any realistic extension. */
  lemma DistanceToValidBelowMaxInt(ext: string, v: string)
    requires v in ValidExts && |ext| < MaxInt
    ensures EditDistance(ext, v) < MaxInt
  {
    ValidExtsShape(v);
    DistanceAtMostLongerLength(ext, v, |ext|, |v|);
  }

  /** The search for the closest valid extension: each accepted extension in
      turn (in an order the model does not fix, as Go's map iteration does
      not), keeping the first one strictly closer than the best so far. */
  method ClosestExtension(ext: string) returns (closest: string)
    ensures closest != "" ==> Nearest(ext, closest)
    ensures |ext| < MaxInt ==> closest != ""
  {
    closest := "";
    var minDist := MaxInt;
    var remaining := ValidExts;
    while remaining != {}
      invariant remaining <= ValidExts
      invariant closest != "" ==> closest in ValidExts && minDist == EditDistance(ext, closest)
      invariant closest == "" ==> minDist == MaxInt
      invariant forall v :: v in ValidExts && v !in remaining ==> minDist <= EditDistance(ext, v)
      decreases |remaining|
    {
      var valid :| valid in remaining;
      var dist := Levenshtein(ext, valid);
      if dist < minDist {
        minDist := dist;
        closest := valid;
      }
      remaining := remaining - {valid};
    }
    if |ext| < MaxInt && closest == "" {
      DistanceToValidBelowMaxInt(ext, ".png");
    }
  }

  // ---------------------------------------------------------------------
  // The checks DrawPV makes before plotting

  /** The part of PVConfig the checks read: the cubic model, which is
      required. The appearance settings only affect the drawing. */
  datatype PVConfig = PVConfig(eos: Option<Cubic.EOSType>)

  /** Every state belongs to the same substance as the first. */
  ghost predicate SameSubstance(states: seq<State>)
    requires |states| > 0
  {
    forall k :: 0 <= k < |states| ==> states[k].substance.name == states[0].substance.name
  }

  /** verifySubstances: the shared substance name, or SubstanceMismatch at
      the first state whose substance name differs from the one before. */
  method VerifySubstances(states: seq<State>) returns (r: Result<string>)
    requires |states| > 0
    ensures r.Ok? <==> SameSubstance(states)
    ensures r.Ok? ==> r.value == states[0].substance.name
    ensures r.Err? ==> r.error == SubstanceMismatch
  {
    var prev := states[0].substance.name;
    var curr := prev;
    var i := 0;
    while i < |states|
      invariant 0 <= i <= |states|
      invariant forall k :: 0 <= k < i ==> states[k].substance.name == states[0].substance.name
      invariant prev == states[0].substance.name && curr == prev
    {
      curr := states[i].substance.name;
      if curr != prev {
        return Err(SubstanceMismatch);
      }
      prev := curr;
      i := i + 1;
    }
    return Ok(curr);
  }

  /** DrawPV before plotting: a missing configuration, then a missing model,
      is rejected before the file name is looked at; an output whose
      extension is not accepted is rejected with the output's stem followed
      by the nearest accepted extension; then a mismatch among the states'
      substances is reported wrapped. On success the result is the substance
      name the plot is titled with. */
  method CheckDrawPV(cfg: Option<PVConfig>, output: string, states: seq<State>) returns (r: Result<string>)
    requires cfg.Some? && cfg.value.eos.Some? && Ext(output) in ValidExts ==> |states| > 0
    ensures cfg.None? ==> r == Err(ConfigNil)
    ensures cfg.Some? && cfg.value.eos.None? ==> r == Err(ModelMissing)
    ensures cfg.Some? && cfg.value.eos.Some? && Ext(output) !in ValidExts && |Ext(output)| < MaxInt ==>
      r.Err? && r.error.InvalidExtension? &&
      exists c :: Nearest(Ext(output), c) && r.error.suggestion == Stem(output) + c
    ensures cfg.Some? && cfg.value.eos.Some? && Ext(output) in ValidExts ==>
      && (SameSubstance(states) ==> r == Ok(states[0].substance.name))
      && (!SameSubstance(states) ==> r == Err(DrawFailed(SubstanceMismatch)))
  {
    if cfg.None? {
      return Err(ConfigNil);
    }
    if cfg.value.eos.None? {
      return Err(ModelMissing);
    }
    var ext := Ext(output);
    if ext !in ValidExts {
      var closest := ClosestExtension(ext);
      return Err(InvalidExtension(Stem(output) + closest));
    }
    var name := VerifySubstances(states);
    if name.Err? {
      return Err(DrawFailed(name.error));
    }
    return Ok(name.value);
  }
}
