/** The post-processing of the time-domain currents after all paths have run
    (cued/main.py `update_currents_with_kweight`): the currents are scaled by
    the k-point weight in place, the polarisation derivative, the dephasing
    current and the split sums are formed, and the anomalous current is
    summed over bands.  The numpy arrays the function changes in place are
    arrays here, so the aliasing of `j_intra_plus_anom_ortho` to
    `j_intra_ortho` at cued/main.py:525 is an aliasing of two references. */
module PostProcessing {
  import opened Outcomes
  import opened Spectral

  // ---------------------------------------------------------------------
  // Array arithmetic on values

  /** `c * a` entrywise. */
  function Scaled(c: real, a: seq<real>): (r: seq<real>)
    ensures |r| == |a|
  {
    seq(|a|, k requires 0 <= k < |a| => c * a[k])
  }

  /** `c * m` on a two-dimensional array given by its rows. */
  function ScaledGrid(c: real, m: seq<seq<real>>): (r: seq<seq<real>>)
    ensures |r| == |m|
  {
    seq(|m|, i requires 0 <= i < |m| => Scaled(c, m[i]))
  }

  /** Every row of m has `cols` entries. */
  predicate Rect(m: seq<seq<real>>, cols: nat)
  {
    forall i :: 0 <= i < |m| ==> |m[i]| == cols
  }

  /** `base + m[:, i]`. */
  function AddColumn(base: seq<real>, m: seq<seq<real>>, i: nat): (r: seq<real>)
    requires |m| == |base| && forall k :: 0 <= k < |m| ==> i < |m[k]|
    ensures |r| == |base|
  {
    seq(|base|, k requires 0 <= k < |base| => base[k] + m[k][i])
  }

  /** `base += m[:, i]` for i in range(cols), in that order. */
  function AddColumns(base: seq<real>, m: seq<seq<real>>, cols: nat): (r: seq<real>)
    requires |m| == |base| && forall k :: 0 <= k < |m| ==> cols <= |m[k]|
    ensures |r| == |base|
  {
    if cols == 0 then base else AddColumn(AddColumns(base, m, cols - 1), m, cols - 1)
  }

  /** The sum of the first n entries of a row. */
  function RowSum(row: seq<real>, n: nat): real
    requires n <= |row|
  {
    if n == 0 then 0.0 else RowSum(row, n - 1) + row[n - 1]
  }

  /** Adding the columns one at a time adds every row's band sum. */
  lemma {:induction false} AddColumnsAddsRowSums(base: seq<real>, m: seq<seq<real>>, cols: nat, k: nat)
    requires |m| == |base| && (forall j :: 0 <= j < |m| ==> cols <= |m[j]|) && k < |base|
    ensures AddColumns(base, m, cols)[k] == base[k] + RowSum(m[k], cols)
  {
    if cols > 0 {
      AddColumnsAddsRowSums(base, m, cols - 1, k);
    }
  }

  /** `diff` broadcast to the time axis: the scalar 0 of a single sample
      becomes zeros. */
  function Broadcast(d: Derivative, n: nat): (r: seq<Float>)
    requires d.Pointwise? ==> |d.values| == n
    ensures |r| == n
  {
    if d.ScalarZero? then seq(n, k => Finite(0.0)) else d.values
  }

  function FScaleAll(c: real, x: seq<Float>): (r: seq<Float>)
    ensures |r| == |x|
  {
    seq(|x|, k requires 0 <= k < |x| => FScale(c, x[k]))
  }

  function FAddAll(a: seq<real>, x: seq<Float>): (r: seq<Float>)
    requires |a| == |x|
    ensures |r| == |a|
  {
    seq(|a|, k requires 0 <= k < |a| => FAddReal(a[k], x[k]))
  }

  /** `diff(t, p) * kweight` on a time axis of the polarisation's length. */
  function WeightedDerivative(t: seq<real>, p: seq<real>, kw: real): (r: seq<Float>)
    requires |t| == |p|
    ensures |r| == |p|
  {
    FScaleAll(kw, Broadcast(CentredDiff(t, p).value, |p|))
  }

  // ---------------------------------------------------------------------
  // The containers' post-processed arrays

  /** The arrays of T that the post-processing reads or writes. */
  datatype Currents = Currents(
    jEDir: seq<real>, jOrtho: seq<real>, jIntraEDir: seq<real>, jIntraOrtho: seq<real>,
    pEDir: seq<real>, pOrtho: seq<real>, jAnomOrtho: seq<seq<real>>, jAnomOrthoFull: seq<real>,
    dtPEDir: seq<Float>, dtPOrtho: seq<Float>, jDephEDir: seq<real>, jDephOrtho: seq<real>,
    jIntraPlusDtPEDir: seq<Float>, jIntraPlusDtPOrtho: seq<Float>)

  /** Every time-indexed array has Nt entries; `j_anom_ortho` is Nt x n. */
  predicate WellShaped(d: Currents, nt: nat, cols: nat)
  {
    && |d.jEDir| == nt && |d.jOrtho| == nt && |d.jIntraEDir| == nt && |d.jIntraOrtho| == nt
    && |d.pEDir| == nt && |d.pOrtho| == nt && |d.jAnomOrtho| == nt && |d.jAnomOrthoFull| == nt
    && Rect(d.jAnomOrtho, cols)
  }

  datatype KweightError = ZeroDephasingTime

  /** Whether `update_currents_with_kweight` raises: `1/P.T2` divides by a
      Python float zero. */
  predicate RaisesOnT2(split: bool, t2: real)
  {
    split && t2 == 0.0
  }

  /** cued/main.py:503-523: everything before the band sum.  The total
      current is weighted in every case; without split currents nothing else
      changes; when `1/P.T2` raises, the scalings done before it are kept and
      the dephasing and sum arrays are untouched.  The band sum is not done
      here. */
  function ScaleAndDerive(d: Currents, t: seq<real>, kw: real, t2: real, split: bool): (r: Currents)
    requires |d.jIntraEDir| == |t| && |d.jIntraOrtho| == |t| && |d.pEDir| == |t| && |d.pOrtho| == |t|
    ensures |r.jEDir| == |d.jEDir| && forall k :: 0 <= k < |d.jEDir| ==> r.jEDir[k] == kw * d.jEDir[k]
    ensures |r.jOrtho| == |d.jOrtho| && forall k :: 0 <= k < |d.jOrtho| ==> r.jOrtho[k] == kw * d.jOrtho[k]
    ensures r.jAnomOrthoFull == d.jAnomOrthoFull
    ensures !split ==> r.(jEDir := d.jEDir, jOrtho := d.jOrtho) == d
    ensures split && t2 == 0.0 ==> && r.jDephEDir == d.jDephEDir && r.jDephOrtho == d.jDephOrtho
                                   && r.jIntraPlusDtPEDir == d.jIntraPlusDtPEDir
                                   && r.jIntraPlusDtPOrtho == d.jIntraPlusDtPOrtho
  {
    var d1 := d.(jEDir := Scaled(kw, d.jEDir), jOrtho := Scaled(kw, d.jOrtho));
    if !split then d1
    else
      var d2 := d1.(jIntraEDir := Scaled(kw, d.jIntraEDir), jIntraOrtho := Scaled(kw, d.jIntraOrtho),
                    dtPEDir := WeightedDerivative(t, d.pEDir, kw), dtPOrtho := WeightedDerivative(t, d.pOrtho, kw),
                    pEDir := Scaled(kw, d.pEDir), pOrtho := Scaled(kw, d.pOrtho),
                    jAnomOrtho := ScaledGrid(kw, d.jAnomOrtho));
      if t2 == 0.0 then d2
      else
        d2.(jDephEDir := Scaled(1.0 / t2, d2.pEDir), jDephOrtho := Scaled(1.0 / t2, d2.pOrtho),
            jIntraPlusDtPEDir := FAddAll(d2.jIntraEDir, d2.dtPEDir),
            jIntraPlusDtPOrtho := FAddAll(d2.jIntraOrtho, d2.dtPOrtho))
  }

  lemma ScaleAndDeriveShape(d: Currents, t: seq<real>, kw: real, t2: real, split: bool, cols: nat)
    requires WellShaped(d, |t|, cols)
    ensures WellShaped(ScaleAndDerive(d, t, kw, t2, split), |t|, cols)
  {
  }

  /** `update_currents_with_kweight` as written: after line 525 both names
      refer to one array, so the band sum of line 528 lands in
      `j_intra_ortho`, whose contents are also those of
      `j_intra_plus_anom_ortho`. */
  function KweightAsWritten(d: Currents, t: seq<real>, kw: real, t2: real, split: bool, cols: nat): (r: Currents)
    requires WellShaped(d, |t|, cols)
    ensures WellShaped(r, |t|, cols)
  {
    ScaleAndDeriveShape(d, t, kw, t2, split, cols);
    var d3 := ScaleAndDerive(d, t, kw, t2, split);
    if !split || t2 == 0.0 then d3
    else d3.(jAnomOrthoFull := AddColumns(d3.jAnomOrthoFull, d3.jAnomOrtho, cols),
             jIntraOrtho := AddColumns(d3.jIntraOrtho, d3.jAnomOrtho, cols))
  }

  /** The intended post-processing: `j_intra_plus_anom_ortho` is a copy of
      `j_intra_ortho`, so only the copy and `j_anom_ortho_full` receive the
      band sum. */
  function Kweighted(d: Currents, t: seq<real>, kw: real, t2: real, split: bool, cols: nat): (r: Currents)
    requires WellShaped(d, |t|, cols)
    ensures WellShaped(r, |t|, cols)
  {
    ScaleAndDeriveShape(d, t, kw, t2, split, cols);
    var d3 := ScaleAndDerive(d, t, kw, t2, split);
    if !split || t2 == 0.0 then d3
    else d3.(jAnomOrthoFull := AddColumns(d3.jAnomOrthoFull, d3.jAnomOrtho, cols))
  }

  /** The contents of `j_intra_plus_anom_ortho` after the intended
      post-processing. */
  function IntraPlusAnomalous(d: Currents, t: seq<real>, kw: real, t2: real, split: bool, cols: nat): (r: seq<real>)
    requires WellShaped(d, |t|, cols)
    ensures |r| == |t|
  {
    ScaleAndDeriveShape(d, t, kw, t2, split, cols);
    var d3 := ScaleAndDerive(d, t, kw, t2, split);
    AddColumns(d3.jIntraOrtho, d3.jAnomOrtho, cols)
  }

  // ---------------------------------------------------------------------
  // Properties

  /** The intended version keeps the intraband current the weighted current
      of the paths, and its sum array is that current plus the band sum of
      the weighted anomalous current, time step by time step. */
  lemma KweightedSplitsCurrents(d: Currents, t: seq<real>, kw: real, t2: real, cols: nat, k: nat)
    requires WellShaped(d, |t|, cols) && t2 != 0.0 && k < |t|
    ensures Kweighted(d, t, kw, t2, true, cols).jIntraOrtho == Scaled(kw, d.jIntraOrtho)
    ensures IntraPlusAnomalous(d, t, kw, t2, true, cols)[k]
            == kw * d.jIntraOrtho[k] + RowSum(Scaled(kw, d.jAnomOrtho[k]), cols)
    ensures Kweighted(d, t, kw, t2, true, cols).jAnomOrthoFull[k]
            == d.jAnomOrthoFull[k] + RowSum(Scaled(kw, d.jAnomOrtho[k]), cols)
  {
    var d3 := ScaleAndDerive(d, t, kw, t2, true);
    ScaleAndDeriveShape(d, t, kw, t2, true, cols);
    AddColumnsAddsRowSums(d3.jIntraOrtho, d3.jAnomOrtho, cols, k);
    AddColumnsAddsRowSums(d3.jAnomOrthoFull, d3.jAnomOrtho, cols, k);
  }

  /** Starting from a zero `j_anom_ortho_full`, the intended sum array is the
      intraband current plus the summed anomalous current. */
  lemma IntraPlusAnomalousIsSum(d: Currents, t: seq<real>, kw: real, t2: real, split: bool, cols: nat, k: nat)
    requires WellShaped(d, |t|, cols) && k < |t|
    requires forall j :: 0 <= j < |t| ==> d.jAnomOrthoFull[j] == 0.0
    requires split && t2 != 0.0
    ensures IntraPlusAnomalous(d, t, kw, t2, split, cols)[k]
            == Kweighted(d, t, kw, t2, split, cols).jIntraOrtho[k] + Kweighted(d, t, kw, t2, split, cols).jAnomOrthoFull[k]
  {
    KweightedSplitsCurrents(d, t, kw, t2, cols, k);
  }

  /** As written, the program's state differs from the intended one only in
      `j_intra_ortho`, which holds what the copy should have held. */
  lemma AsWrittenIsAliased(d: Currents, t: seq<real>, kw: real, t2: real, split: bool, cols: nat)
    requires WellShaped(d, |t|, cols)
    ensures !RaisesOnT2(split, t2) && split ==>
              KweightAsWritten(d, t, kw, t2, split, cols)
              == Kweighted(d, t, kw, t2, split, cols).(jIntraOrtho := IntraPlusAnomalous(d, t, kw, t2, split, cols))
    ensures !split || t2 == 0.0 ==> KweightAsWritten(d, t, kw, t2, split, cols) == Kweighted(d, t, kw, t2, split, cols)
  {
  }

  /** One time step, one band, weight 1: the written `j_intra_ortho` is 1
      where the intraband current is 0. */
  lemma AliasAddsAnomalousToIntraband()
    ensures var d := Currents([0.0], [0.0], [0.0], [0.0], [0.0], [0.0], [[1.0]], [0.0], [], [], [], [], [], []);
            && KweightAsWritten(d, [0.0], 1.0, 1.0, true, 1).jIntraOrtho == [1.0]
            && Kweighted(d, [0.0], 1.0, 1.0, true, 1).jIntraOrtho == [0.0]
  {
    var d := Currents([0.0], [0.0], [0.0], [0.0], [0.0], [0.0], [[1.0]], [0.0], [], [], [], [], [], []);
    assert WellShaped(d, 1, 1);
    var d3 := ScaleAndDerive(d, [0.0], 1.0, 1.0, true);
    assert d3.jIntraOrtho == [0.0];
    assert Scaled(1.0, [1.0]) == [1.0];
    assert d3.jAnomOrtho == [[1.0]];
    assert AddColumns(d3.jIntraOrtho, d3.jAnomOrtho, 1) == AddColumn([0.0], [[1.0]], 0);
  }

  /** The stencil commutes with scaling the data. */
  lemma StencilOfScaled(x: seq<real>, y: seq<real>, c: real, i: nat)
    requires |x| == |y| && i < |y|
    ensures Stencil(x, Scaled(c, y), i) == FScale(c, Stencil(x, y, i))
  {
    var n := |y|;
    var a, b := y[(i + 1) % n], y[(i - 1) % n];
    var dx := x[(i + 1) % n] - x[(i - 1) % n];
    assert Scaled(c, y)[(i + 1) % n] == c * a;
    assert Scaled(c, y)[(i - 1) % n] == c * b;
    if dx != 0.0 {
      assert c * a - c * b == c * (a - b);
      assert (c * (a - b)) / dx == c * ((a - b) / dx);
    }
  }

  /** Taking the derivative before the polarisation is weighted (line 510
      comes before line 513) gives the derivative of the weighted
      polarisation. */
  lemma DerivativeOfWeightedPolarisation(t: seq<real>, p: seq<real>, kw: real)
    requires |t| == |p|
    ensures WeightedDerivative(t, p, kw) == Broadcast(CentredDiff(t, Scaled(kw, p)).value, |p|)
  {
    var lhs, rhs := WeightedDerivative(t, p, kw), Broadcast(CentredDiff(t, Scaled(kw, p)).value, |p|);
    forall i | 0 <= i < |p| ensures lhs[i] == rhs[i] {
      if |p| != 1 {
        StencilOfScaled(t, p, kw, i);
      }
    }
  }

  /** Eq. (81) of the SBE formalism: the dephasing current is the weighted
      polarisation divided by T2. */
  lemma DephasingCurrent(d: Currents, t: seq<real>, kw: real, t2: real, cols: nat, k: nat)
    requires WellShaped(d, |t|, cols) && t2 != 0.0 && k < |t|
    ensures Kweighted(d, t, kw, t2, true, cols).jDephEDir[k] * t2 == kw * d.pEDir[k]
    ensures Kweighted(d, t, kw, t2, true, cols).jDephOrtho[k] * t2 == kw * d.pOrtho[k]
  {
    var d3 := Kweighted(d, t, kw, t2, true, cols);
    assert d3.jDephEDir[k] == (1.0 / t2) * (kw * d.pEDir[k]);
    assert d3.jDephOrtho[k] == (1.0 / t2) * (kw * d.pOrtho[k]);
  }

  // ---------------------------------------------------------------------
  // In-place updates

  /** `a *= c`. */
  method ScaleInPlace(a: array<real>, c: real)
    modifies a
    ensures a[..] == Scaled(c, old(a[..]))
  {
    for k := 0 to a.Length
      invariant forall j :: 0 <= j < a.Length ==> a[j] == (if j < k then c * old(a[j]) else old(a[j]))
    {
      a[k] := c * a[k];
    }
    assert forall j :: 0 <= j < a.Length ==> a[..][j] == Scaled(c, old(a[..]))[j];
  }

  /** The rows of a two-dimensional array. */
  function Grid(m: array2<real>): (r: seq<seq<real>>)
    reads m
    ensures |r| == m.Length0 && Rect(r, m.Length1)
  {
    seq(m.Length0, i requires 0 <= i < m.Length0 reads m =>
      seq(m.Length1, j requires 0 <= j < m.Length1 reads m => m[i, j]))
  }

  /** An array of zeros holds the zero sequence. */
  lemma ZeroFilled(a: array<real>)
    requires forall k :: 0 <= k < a.Length ==> a[k] == 0.0
    ensures a[..] == seq(a.Length, _ => 0.0)
  {
  }

  /** A two-dimensional array of zeros has rows of zeros. */
  lemma ZeroFilledGrid(m: array2<real>)
    requires forall i, j :: 0 <= i < m.Length0 && 0 <= j < m.Length1 ==> m[i, j] == 0.0
    ensures Grid(m) == seq(m.Length0, _ => seq(m.Length1, _ => 0.0))
  {
    forall i | 0 <= i < m.Length0
      ensures Grid(m)[i] == seq(m.Length1, _ => 0.0)
    {
      assert forall j :: 0 <= j < m.Length1 ==> m[i, j] == 0.0;
    }
  }

  /** `m *= c` on a two-dimensional array. */
  method ScaleGridInPlace(m: array2<real>, c: real)
    modifies m
    ensures Grid(m) == ScaledGrid(c, old(Grid(m)))
  {
    for i := 0 to m.Length0
      invariant forall a, b :: 0 <= a < m.Length0 && 0 <= b < m.Length1 ==>
                  m[a, b] == (if a < i then c * old(m[a, b]) else old(m[a, b]))
    {
      for j := 0 to m.Length1
        invariant forall a, b :: 0 <= a < m.Length0 && 0 <= b < m.Length1 ==>
                    m[a, b] == (if a < i || (a == i && b < j) then c * old(m[a, b]) else old(m[a, b]))
      {
        m[i, j] := c * m[i, j];
      }
    }
    forall a | 0 <= a < m.Length0 ensures Grid(m)[a] == ScaledGrid(c, old(Grid(m)))[a] {
      forall b | 0 <= b < m.Length1 ensures Grid(m)[a][b] == Scaled(c, old(Grid(m))[a])[b] {
        assert Grid(m)[a][b] == m[a, b];
      }
      assert Grid(m)[a] == Scaled(c, old(Grid(m))[a]);
    }
  }

  /** `a += m[:, i]`. */
  method AddColumnInPlace(a: array<real>, m: array2<real>, i: nat)
    requires a.Length == m.Length0 && i < m.Length1
    modifies a
    ensures a[..] == AddColumn(old(a[..]), Grid(m), i)
  {
    for k := 0 to a.Length
      invariant forall j :: 0 <= j < a.Length ==> a[j] == (if j < k then old(a[j]) + m[j, i] else old(a[j]))
    {
      a[k] := a[k] + m[k, i];
    }
  }

  /** The loop of cued/main.py:526-528 on two distinct arrays. */
  method AddColumnsToBoth(full: array<real>, plus: array<real>, m: array2<real>)
    requires full != plus && full.Length == m.Length0 && plus.Length == m.Length0
    modifies full, plus
    ensures full[..] == AddColumns(old(full[..]), Grid(m), m.Length1)
    ensures plus[..] == AddColumns(old(plus[..]), Grid(m), m.Length1)
  {
    for i := 0 to m.Length1
      invariant full[..] == AddColumns(old(full[..]), Grid(m), i)
      invariant plus[..] == AddColumns(old(plus[..]), Grid(m), i)
    {
      AddColumnInPlace(full, m, i);
      AddColumnInPlace(plus, m, i);
    }
  }

  /** `a.copy()`. */
  method Copy(a: array<real>) returns (b: array<real>)
    ensures fresh(b) && b[..] == a[..]
  {
    b := new real[a.Length];
    for k := 0 to a.Length
      invariant forall j :: 0 <= j < k ==> b[j] == a[j]
    {
      b[k] := a[k];
    }
  }

  /** The fields of T the post-processing touches; numpy arrays it changes in
      place are arrays, attributes it assigns afresh are sequences. */
  class KweightContainers {
    const t: seq<real>
    var jEDir: array<real>
    var jOrtho: array<real>
    var jIntraEDir: array<real>
    var jIntraOrtho: array<real>
    var pEDir: array<real>
    var pOrtho: array<real>
    var jAnomOrtho: array2<real>
    var jAnomOrthoFull: array<real>
    var dtPEDir: seq<Float>
    var dtPOrtho: seq<Float>
    var jDephEDir: seq<real>
    var jDephOrtho: seq<real>
    var jIntraPlusDtPEDir: seq<Float>
    var jIntraPlusDtPOrtho: seq<Float>
    var jIntraPlusAnomOrtho: Option<array<real>>

    /** `T = TimeContainers(P)` (cued/main.py:155): distinct zero-filled arrays
        of Nt entries, Nt x n bands for `j_anom_ortho`; nothing is derived yet. */
    constructor (t: seq<real>, nBands: nat)
      ensures Valid() && this.t == t && jAnomOrtho.Length1 == nBands
      ensures fresh(jEDir) && fresh(jOrtho) && fresh(jIntraEDir) && fresh(jIntraOrtho)
      ensures fresh(pEDir) && fresh(pOrtho) && fresh(jAnomOrtho) && fresh(jAnomOrthoFull)
      ensures jIntraPlusAnomOrtho == None
      ensures var z := seq(|t|, _ => 0.0);
              Snapshot() == Currents(z, z, z, z, z, z, seq(|t|, _ => seq(nBands, _ => 0.0)), z, [], [], [], [], [], [])
    {
      this.t := t;
      jEDir := new real[|t|](_ => 0.0);
      jOrtho := new real[|t|](_ => 0.0);
      jIntraEDir := new real[|t|](_ => 0.0);
      jIntraOrtho := new real[|t|](_ => 0.0);
      pEDir := new real[|t|](_ => 0.0);
      pOrtho := new real[|t|](_ => 0.0);
      jAnomOrtho := new real[|t|, nBands]((_, _) => 0.0);
      jAnomOrthoFull := new real[|t|](_ => 0.0);
      dtPEDir, dtPOrtho := [], [];
      jDephEDir, jDephOrtho := [], [];
      jIntraPlusDtPEDir, jIntraPlusDtPOrtho := [], [];
      jIntraPlusAnomOrtho := None;
      new;
      ZeroFilled(jEDir);
      ZeroFilled(jOrtho);
      ZeroFilled(jIntraEDir);
      ZeroFilled(jIntraOrtho);
      ZeroFilled(pEDir);
      ZeroFilled(pOrtho);
      ZeroFilled(jAnomOrthoFull);
      ZeroFilledGrid(jAnomOrtho);
    }

    function Arrays(): (array<real>, array<real>, array<real>, array<real>, array<real>, array<real>, array2<real>, array<real>)
      reads this
    {
      (jEDir, jOrtho, jIntraEDir, jIntraOrtho, pEDir, pOrtho, jAnomOrtho, jAnomOrthoFull)
    }

    /** The arrays of T are distinct numpy arrays of Nt entries. */
    predicate Valid()
      reads this
    {
      && jEDir.Length == |t| && jOrtho.Length == |t| && jIntraEDir.Length == |t| && jIntraOrtho.Length == |t|
      && pEDir.Length == |t| && pOrtho.Length == |t| && jAnomOrtho.Length0 == |t| && jAnomOrthoFull.Length == |t|
      && jEDir != jOrtho && jEDir != jIntraEDir && jEDir != jIntraOrtho && jEDir != pEDir
      && jEDir != pOrtho && jEDir != jAnomOrthoFull
      && jOrtho != jIntraEDir && jOrtho != jIntraOrtho && jOrtho != pEDir && jOrtho != pOrtho
      && jOrtho != jAnomOrthoFull
      && jIntraEDir != jIntraOrtho && jIntraEDir != pEDir && jIntraEDir != pOrtho && jIntraEDir != jAnomOrthoFull
      && jIntraOrtho != pEDir && jIntraOrtho != pOrtho && jIntraOrtho != jAnomOrthoFull
      && pEDir != pOrtho && pEDir != jAnomOrthoFull
      && pOrtho != jAnomOrthoFull
    }

    function Snapshot(): (r: Currents)
      reads this, jEDir, jOrtho, jIntraEDir, jIntraOrtho, pEDir, pOrtho, jAnomOrtho, jAnomOrthoFull
      ensures Valid() ==> WellShaped(r, |t|, jAnomOrtho.Length1)
    {
      Currents(jEDir[..], jOrtho[..], jIntraEDir[..], jIntraOrtho[..], pEDir[..], pOrtho[..],
               Grid(jAnomOrtho), jAnomOrthoFull[..], dtPEDir, dtPOrtho, jDephEDir, jDephOrtho,
               jIntraPlusDtPEDir, jIntraPlusDtPOrtho)
    }

    /** cued/main.py:503-504. */
    method ScaleTotals(kw: real)
      requires Valid()
      modifies jEDir, jOrtho
      ensures Snapshot() == old(Snapshot()).(jEDir := Scaled(kw, old(jEDir[..])), jOrtho := Scaled(kw, old(jOrtho[..])))
    {
      ScaleInPlace(jEDir, kw);
      ScaleInPlace(jOrtho, kw);
    }

    /** cued/main.py:507-515. */
    method ScaleSplit(kw: real)
      requires Valid()
      modifies this, jIntraEDir, jIntraOrtho, pEDir, pOrtho, jAnomOrtho
      ensures Valid() && Arrays() == old(Arrays()) && jIntraPlusAnomOrtho == old(jIntraPlusAnomOrtho)
      ensures jDephEDir == old(jDephEDir) && jDephOrtho == old(jDephOrtho)
      ensures jIntraPlusDtPEDir == old(jIntraPlusDtPEDir) && jIntraPlusDtPOrtho == old(jIntraPlusDtPOrtho)
      ensures var d := old(Snapshot());
              Snapshot() == d.(jIntraEDir := Scaled(kw, d.jIntraEDir), jIntraOrtho := Scaled(kw, d.jIntraOrtho),
                               dtPEDir := WeightedDerivative(t, d.pEDir, kw), dtPOrtho := WeightedDerivative(t, d.pOrtho, kw),
                               pEDir := Scaled(kw, d.pEDir), pOrtho := Scaled(kw, d.pOrtho),
                               jAnomOrtho := ScaledGrid(kw, d.jAnomOrtho))
    {
      ScaleInPlace(jIntraEDir, kw);
      ScaleInPlace(jIntraOrtho, kw);
      dtPEDir := WeightedDerivative(t, pEDir[..], kw);
      dtPOrtho := WeightedDerivative(t, pOrtho[..], kw);
      ScaleInPlace(pEDir, kw);
      ScaleInPlace(pOrtho, kw);
      ScaleGridInPlace(jAnomOrtho, kw);
    }

    /** cued/main.py:518-523, for a non-zero T2. */
    method DephasingAndSums(t2: real)
      requires Valid() && t2 != 0.0 && |dtPEDir| == |t| && |dtPOrtho| == |t|
      modifies this
      ensures Valid() && Arrays() == old(Arrays()) && jIntraPlusAnomOrtho == old(jIntraPlusAnomOrtho)
      ensures var d := old(Snapshot());
              Snapshot() == d.(jDephEDir := Scaled(1.0 / t2, d.pEDir), jDephOrtho := Scaled(1.0 / t2, d.pOrtho),
                               jIntraPlusDtPEDir := FAddAll(d.jIntraEDir, d.dtPEDir),
                               jIntraPlusDtPOrtho := FAddAll(d.jIntraOrtho, d.dtPOrtho))
    {
      jDephEDir := Scaled(1.0 / t2, pEDir[..]);
      jDephOrtho := Scaled(1.0 / t2, pOrtho[..]);
      jIntraPlusDtPEDir := FAddAll(jIntraEDir[..], dtPEDir);
      jIntraPlusDtPOrtho := FAddAll(jIntraOrtho[..], dtPOrtho);
    }

    /** cued/main.py:503-523; false where `1/P.T2` raises. */
    method ScaleAndDeriveInPlace(split: bool, kw: real, t2: real) returns (ok: bool)
      requires Valid()
      modifies this, jEDir, jOrtho, jIntraEDir, jIntraOrtho, pEDir, pOrtho, jAnomOrtho
      ensures Valid() && Arrays() == old(Arrays()) && jIntraPlusAnomOrtho == old(jIntraPlusAnomOrtho)
      ensures ok <==> !RaisesOnT2(split, t2)
      ensures Snapshot() == ScaleAndDerive(old(Snapshot()), t, kw, t2, split)
    {
      ScaleTotals(kw);
      if !split {
        return true;
      }
      ScaleSplit(kw);
      if t2 == 0.0 {
        return false;
      }
      DephasingAndSums(t2);
      return true;
    }

    /** `update_currents_with_kweight` as written (cued/main.py:501-528):
        `j_intra_plus_anom_ortho` becomes the array `j_intra_ortho` itself. */
    method UpdateCurrentsWithKweightAsWritten(split: bool, kw: real, t2: real) returns (r: Result<(), KweightError>)
      requires Valid()
      modifies this, jEDir, jOrtho, jIntraEDir, jIntraOrtho, pEDir, pOrtho, jAnomOrtho, jAnomOrthoFull
      ensures Valid() && Arrays() == old(Arrays())
      ensures r.Err? <==> RaisesOnT2(split, t2)
      ensures Snapshot() == KweightAsWritten(old(Snapshot()), t, kw, t2, split, jAnomOrtho.Length1)
      ensures r.Ok? && split ==> jIntraPlusAnomOrtho == Some(jIntraOrtho)
      ensures !(r.Ok? && split) ==> jIntraPlusAnomOrtho == old(jIntraPlusAnomOrtho)
    {
      var ok := ScaleAndDeriveInPlace(split, kw, t2);
      if !ok {
        return Err(ZeroDephasingTime);
      }
      if split {
        jIntraPlusAnomOrtho := Some(jIntraOrtho);
        AddColumnsToBoth(jAnomOrthoFull, jIntraPlusAnomOrtho.value, jAnomOrtho);
      }
      return Ok(());
    }

    /** The intended `update_currents_with_kweight`: `j_intra_plus_anom_ortho`
        starts as a copy of `j_intra_ortho`. */
    method UpdateCurrentsWithKweight(split: bool, kw: real, t2: real) returns (r: Result<(), KweightError>)
      requires Valid()
      modifies this, jEDir, jOrtho, jIntraEDir, jIntraOrtho, pEDir, pOrtho, jAnomOrtho, jAnomOrthoFull
      ensures Valid() && Arrays() == old(Arrays())
      ensures r.Err? <==> RaisesOnT2(split, t2)
      ensures Snapshot() == Kweighted(old(Snapshot()), t, kw, t2, split, jAnomOrtho.Length1)
      ensures r.Ok? && split ==>
                && jIntraPlusAnomOrtho.Some? && fresh(jIntraPlusAnomOrtho.value)
                && jIntraPlusAnomOrtho.value[..] == IntraPlusAnomalous(old(Snapshot()), t, kw, t2, split, jAnomOrtho.Length1)
      ensures !(r.Ok? && split) ==> jIntraPlusAnomOrtho == old(jIntraPlusAnomOrtho)
    {
      var ok := ScaleAndDeriveInPlace(split, kw, t2);
      if !ok {
        return Err(ZeroDephasingTime);
      }
      if split {
        var copy := Copy(jIntraOrtho);
        jIntraPlusAnomOrtho := Some(copy);
        AddColumnsToBoth(jAnomOrthoFull, copy, jAnomOrtho);
      }
      return Ok(());
    }
  }
}
