/** The right-hand side and the array helpers of the older two-band solver
    (sbe/solver/solver.py): the length- and velocity-gauge kernels built by
    `make_fnumba`, the initial occupation vector and the gradient-based
    derivative.  The state of a path with Nk points is laid out per point as
    (f_v, p_vc, p_cv, f_c), followed by one slot whose real part is the vector
    potential.  Energies, dipoles and E(t) are outside this model and are
    passed in. */
module TwoBandSolver {
  import opened Cplx
  import opened Outcomes
  import Plane
  import Arith
  import Spectral
  import CuedSetup

  // ---------------------------------------------------------------------
  // The per-point kernel

  /** The damping rates gamma1 = 1/T1 and gamma2 = 1/T2. */
  datatype Rates = Rates(gamma1: real, gamma2: real)

  /** The band data of one point: the gap e_c - e_v, the inter-band dipole
      along E and the difference of the intra-band dipoles along E. */
  datatype PointData = PointData(ecv: real, dipole: Complex, aDiag: Complex)

  /** The gradient terms added to f_v, p_vc and f_c (zero in the velocity gauge). */
  datatype Gradient = Gradient(gv: Complex, gp: Complex, gc: Complex)

  const NoGradient: Gradient := Gradient(Zero, Zero, Zero)

  /** The state holds four entries per point and the A-field slot. */
  predicate Layout(nk: nat, y: Vec, y0: Vec)
  {
    |y| == 4 * nk + 1 && |y0| == |y|
  }

  /** The coherence equation for p_vc at the point whose f_v sits at i. */
  function Coherence(rt: Rates, e: real, p: PointData, y: Vec, i: nat, g: Complex): Complex
    requires i + 3 < |y|
  {
    var wrC := Conj(Scale(e, p.dipole));
    var coeff := Add(Complex(-rt.gamma2, p.ecv), Mul(J, Scale(e, p.aDiag)));
    Add(Sub(Mul(coeff, y[i + 1]), Mul(Mul(J, wrC), Sub(y[i], y[i + 3]))), g)
  }

  /** Component c (f_v, p_vc, p_cv, f_c) of the time derivative at the point
      whose f_v sits at i. */
  function Component(rt: Rates, e: real, p: PointData, y: Vec, y0: Vec, i: nat, g: Gradient, c: nat): Complex
    requires i + 3 < |y| && |y0| == |y| && c < 4
  {
    var pump := 2.0 * Mul(Scale(e, p.dipole), y[i + 1]).im;
    if c == 0 then Sub(Add(OfReal(pump), g.gv), Scale(rt.gamma1, Sub(y[i], y0[i])))
    else if c == 1 then Coherence(rt, e, p, y, i, g.gp)
    else if c == 2 then Conj(Coherence(rt, e, p, y, i, g.gp))
    else Sub(Add(OfReal(-pump), g.gc), Scale(rt.gamma1, Sub(y[i + 3], y0[i + 3])))
  }

  /** The whole derivative vector for the point data and gradient terms of
      every point; the last entry is -E(t). */
  /** Entry j of the derivative vector: component j mod 4 of point j / 4, and
      -E(t) in the last slot. */
  function KernelEntry(rt: Rates, e: real, nk: nat, y: Vec, y0: Vec, data: seq<PointData>, grads: seq<Gradient>, j: nat): Complex
    requires Layout(nk, y, y0) && |data| == nk && |grads| == nk && j < |y|
  {
    if j == 4 * nk then OfReal(-e)
    else
      Arith.QuotientBound(j, nk, 4);
      Component(rt, e, data[j / 4], y, y0, 4 * (j / 4), grads[j / 4], j % 4)
  }

  /** The whole derivative vector for the point data and gradient terms of
      every point. */
  function Kernel(rt: Rates, e: real, nk: nat, y: Vec, y0: Vec, data: seq<PointData>, grads: seq<Gradient>): (r: Vec)
    requires Layout(nk, y, y0) && |data| == nk && |grads| == nk
    ensures |r| == |y|
  {
    seq(|y|, j requires 0 <= j < |y| => KernelEntry(rt, e, nk, y, y0, data, grads, j))
  }

  /** Entry 4k + c of the kernel is component c of point k. */
  lemma KernelAt(rt: Rates, e: real, nk: nat, y: Vec, y0: Vec, data: seq<PointData>, grads: seq<Gradient>, k: nat, c: nat)
    requires Layout(nk, y, y0) && |data| == nk && |grads| == nk && k < nk && c < 4
    ensures 4 * k + c < |y|
    ensures Kernel(rt, e, nk, y, y0, data, grads)[4 * k + c] == Component(rt, e, data[k], y, y0, 4 * k, grads[k], c)
  {
    Arith.RowMajor(4, k, c);
  }

  /** p_cv is the complex conjugate of p_vc at every point, and the last
      entry is -E(t). */
  lemma KernelStructure(rt: Rates, e: real, nk: nat, y: Vec, y0: Vec, data: seq<PointData>, grads: seq<Gradient>, k: nat)
    requires Layout(nk, y, y0) && |data| == nk && |grads| == nk && k < nk
    ensures var r := Kernel(rt, e, nk, y, y0, data, grads);
            r[4 * k + 2] == Conj(r[4 * k + 1]) && r[|y| - 1] == OfReal(-e)
  {
    KernelAt(rt, e, nk, y, y0, data, grads, k, 1);
    KernelAt(rt, e, nk, y, y0, data, grads, k, 2);
  }

  /** y0 has vanishing coherences. */
  predicate NoCoherences(nk: nat, y0: Vec)
    requires |y0| == 4 * nk + 1
  {
    forall k :: 0 <= k < nk ==> y0[4 * k + 1] == Zero && y0[4 * k + 2] == Zero
  }

  /** Without a field and without gradient terms, a point without coherence
      whose occupations sit at their initial values does not move. */
  lemma ComponentAtRest(rt: Rates, p: PointData, y0: Vec, i: nat, c: nat)
    requires i + 3 < |y0| && c < 4 && y0[i + 1] == Zero
    ensures Component(rt, 0.0, p, y0, y0, i, NoGradient, c) == Zero
  {
    assert Scale(0.0, p.dipole) == Zero;
    assert Scale(0.0, p.aDiag) == Zero;
    assert Mul(Zero, y0[i + 1]) == Zero;
    var coeff := Add(Complex(-rt.gamma2, p.ecv), Mul(J, Zero));
    assert Mul(coeff, Zero) == Zero;
    assert Mul(Mul(J, Conj(Zero)), Sub(y0[i], y0[i + 3])) == Zero;
  }

  /** Without a field and without gradient terms, a state equal to an initial
      value without coherences does not move: every entry is zero. */
  lemma FieldFreeRest(rt: Rates, nk: nat, y0: Vec, data: seq<PointData>, j: nat)
    requires Layout(nk, y0, y0) && |data| == nk && NoCoherences(nk, y0) && j < |y0|
    ensures Kernel(rt, 0.0, nk, y0, y0, data, seq(nk, k => NoGradient))[j] == Zero
  {
    EntryAtRest(rt, nk, y0, data, seq(nk, k => NoGradient), j);
  }

  lemma EntryAtRest(rt: Rates, nk: nat, y0: Vec, data: seq<PointData>, grads: seq<Gradient>, j: nat)
    requires Layout(nk, y0, y0) && |data| == nk && NoCoherences(nk, y0) && j < |y0|
    requires grads == seq(nk, k => NoGradient)
    ensures KernelEntry(rt, 0.0, nk, y0, y0, data, grads, j) == Zero
  {
    if j < 4 * nk {
      var k, c := j / 4, j % 4;
      Arith.QuotientBound(j, nk, 4);
      assert grads[k] == NoGradient;
      assert y0[4 * k + 1] == Zero;
      ComponentAtRest(rt, data[k], y0, 4 * k, c);
    } else {
      assert OfReal(-0.0) == Zero;
    }
  }

  // ---------------------------------------------------------------------
  // The length gauge

  /** The neighbour offsets as written (sbe/solver/solver.py:374-386): the
      first point takes 4 (k + 1) and 4 (Nk - 1), the last 0 and 4 (k - 1),
      the others 4 (k + 1) and 4 (k - 1).  Both start a four-entry block of
      a path point, and from two points on the block lies inside the state. */
  function NeighboursAsWritten(k: nat, nk: nat): (r: (nat, nat))
    requires k < nk
    ensures r.0 % 4 == 0 && r.1 % 4 == 0
    ensures nk >= 2 ==> r.0 + 3 < 4 * nk + 1 && r.1 + 3 < 4 * nk + 1
  {
    if k == 0 then (4 * (k + 1), 4 * (nk - 1))
    else if k == nk - 1 then (0, 4 * (k - 1))
    else (4 * (k + 1), 4 * (k - 1))
  }

  /** The periodic neighbour offsets the stencil means: 4 ((k + 1) mod Nk)
      and 4 ((k - 1) mod Nk). */
  function Neighbours(k: nat, nk: nat): (r: (nat, nat))
    requires k < nk
    ensures r.0 + 3 < 4 * nk + 1 && r.1 + 3 < 4 * nk + 1
  {
    (4 * ((k + 1) % nk), 4 * ((k - 1) % nk))
  }

  /** From two points on, the written offsets are the periodic ones. */
  lemma NeighboursAgree(k: nat, nk: nat)
    requires k < nk && nk >= 2
    ensures NeighboursAsWritten(k, nk) == Neighbours(k, nk)
  {
    if k == nk - 1 {
      Arith.DivModUnique(k + 1, nk, 1, 0);
    } else {
      Arith.DivModUnique(k + 1, nk, 0, k + 1);
    }
    if k == 0 {
      Arith.DivModUnique(k - 1, nk, -1, nk - 1);
    } else {
      Arith.DivModUnique(k - 1, nk, 0, k - 1);
    }
  }

  /** On a path of one point the written offset of the next point is 4, the
      A-field slot, and the p_vc neighbour it reads, y[5], lies past the end
      of the 5-entry state; the periodic offsets are both 0. */
  lemma SinglePointNeighbourPastEnd()
    ensures NeighboursAsWritten(0, 1) == (4, 0)
    ensures NeighboursAsWritten(0, 1).0 + 1 >= 4 * 1 + 1
    ensures Neighbours(0, 1) == (0, 0)
  {
  }

  /** The length-gauge gradient terms D (y[m + c] - y[n + c]) with
      D = E / (2 dk). */
  function LengthGradients(e: real, dk: real, nk: nat, y: Vec): (r: seq<Gradient>)
    requires |y| == 4 * nk + 1 && dk != 0.0
    ensures |r| == nk
  {
    var d := e / (2.0 * dk);
    seq(nk, k requires 0 <= k < nk =>
      var (m, n) := Neighbours(k, nk);
      Gradient(Scale(d, Sub(y[m], y[n])), Scale(d, Sub(y[m + 1], y[n + 1])), Scale(d, Sub(y[m + 3], y[n + 3]))))
  }

  /** The point data of a path from its three arrays. */
  function Zip(ecv: seq<real>, dipole: Vec, aDiag: Vec): (r: seq<PointData>)
    requires |dipole| == |ecv| && |aDiag| == |ecv|
    ensures |r| == |ecv|
  {
    seq(|ecv|, k requires 0 <= k < |ecv| => PointData(ecv[k], dipole[k], aDiag[k]))
  }

  datatype RhsError = ZeroStep | UnknownGauge

  /** Writes the four entries of point k. */
  method WriteBlock(x: array<Complex>, rt: Rates, e: real, nk: nat, y: Vec, y0: Vec, data: seq<PointData>, grads: seq<Gradient>, k: nat)
    requires Layout(nk, y, y0) && |data| == nk && |grads| == nk && k < nk && x.Length == |y|
    modifies x
    ensures forall j :: 0 <= j < 4 * k ==> x[j] == old(x[j])
    ensures x[4 * k] == KernelEntry(rt, e, nk, y, y0, data, grads, 4 * k)
    ensures x[4 * k + 1] == KernelEntry(rt, e, nk, y, y0, data, grads, 4 * k + 1)
    ensures x[4 * k + 2] == KernelEntry(rt, e, nk, y, y0, data, grads, 4 * k + 2)
    ensures x[4 * k + 3] == KernelEntry(rt, e, nk, y, y0, data, grads, 4 * k + 3)
  {
    var i := 4 * k;
    x[i] := Component(rt, e, data[k], y, y0, i, grads[k], 0);
    x[i + 1] := Component(rt, e, data[k], y, y0, i, grads[k], 1);
    x[i + 2] := Conj(x[i + 1]);
    x[i + 3] := Component(rt, e, data[k], y, y0, i, grads[k], 3);
    Arith.RowMajor(4, k, 0);
    Arith.RowMajor(4, k, 1);
    Arith.RowMajor(4, k, 2);
    Arith.RowMajor(4, k, 3);
  }

  /** The loop shared by both kernels: point after point, then the A-field
      slot. */
  method FillKernel(x: array<Complex>, rt: Rates, e: real, nk: nat, y: Vec, y0: Vec, data: seq<PointData>, grads: seq<Gradient>)
    requires Layout(nk, y, y0) && |data| == nk && |grads| == nk && x.Length == |y|
    modifies x
    ensures x[..] == Kernel(rt, e, nk, y, y0, data, grads)
  {
    for k := 0 to nk
      invariant forall j :: 0 <= j < 4 * k ==> x[j] == KernelEntry(rt, e, nk, y, y0, data, grads, j)
    {
      WriteBlock(x, rt, e, nk, y, y0, data, grads, k);
      forall j | 4 * k <= j < 4 * k + 4 ensures x[j] == KernelEntry(rt, e, nk, y, y0, data, grads, j) {
        assert j == 4 * k || j == 4 * k + 1 || j == 4 * k + 2 || j == 4 * k + 3;
      }
    }
    x[|y| - 1] := OfReal(-e);
    assert x[..] == Kernel(rt, e, nk, y, y0, data, grads);
  }

  /** The value of `flength`: `D = E/(2 dk)` raises for dk == 0 (numba keeps
      Python's division semantics). */
  function LengthRhs(rt: Rates, e: real, dk: real, y: Vec, y0: Vec, ecv: seq<real>, dipole: Vec, aDiag: Vec): (r: Result<Vec, RhsError>)
    requires Layout(|ecv|, y, y0) && |dipole| == |ecv| && |aDiag| == |ecv|
    ensures r.Err? <==> dk == 0.0
    ensures r.Ok? ==> |r.value| == |y|
  {
    if dk == 0.0 then Err(ZeroStep)
    else Ok(Kernel(rt, e, |ecv|, y, y0, Zip(ecv, dipole, aDiag), LengthGradients(e, dk, |ecv|, y)))
  }

  /** Without a field the length-gauge gradient terms vanish. */
  lemma LengthGradientsVanish(dk: real, nk: nat, y: Vec)
    requires |y| == 4 * nk + 1 && dk != 0.0
    ensures LengthGradients(0.0, dk, nk, y) == seq(nk, k => NoGradient)
  {
    assert 0.0 / (2.0 * dk) == 0.0;
  }

  /** The loop of `flength`: a fresh buffer written four entries per point,
      then the A-field slot. */
  method FLength(rt: Rates, ef: real -> real, t: real, y: Vec, kpath: seq<Plane.Point>, dk: real,
                 ecv: seq<real>, dipole: Vec, aDiag: Vec, y0: Vec) returns (r: Result<Vec, RhsError>)
    requires Layout(|kpath|, y, y0) && |ecv| == |kpath| && |dipole| == |kpath| && |aDiag| == |kpath|
    ensures r == LengthRhs(rt, ef(t), dk, y, y0, ecv, dipole, aDiag)
  {
    var e := ef(t);
    if dk == 0.0 {
      return Err(ZeroStep);
    }
    var nk := |kpath|;
    var data, grads := Zip(ecv, dipole, aDiag), LengthGradients(e, dk, nk, y);
    var x := new Complex[|y|](_ => Zero);
    FillKernel(x, rt, e, nk, y, y0, data, grads);
    return Ok(x[..]);
  }

  // ---------------------------------------------------------------------
  // The velocity gauge

  /** The band structure functions of the system, evaluated at (kx, ky):
      `efjit[0]`, `efjit[1]` and the dipole components `Axfjit[m][n]`,
      `Ayfjit[m][n]`. */
  datatype Bands = Bands(
    ev: (real, real) -> real, ec: (real, real) -> real,
    d00x: (real, real) -> Complex, d01x: (real, real) -> Complex, d11x: (real, real) -> Complex,
    d00y: (real, real) -> Complex, d01y: (real, real) -> Complex, d11y: (real, real) -> Complex)

  /** The band data at a point shifted by the vector potential along E. */
  function ShiftedPoint(b: Bands, eDir: Plane.Point, semiclassical: bool, kp: Plane.Point, shift: real): PointData
  {
    var kx, ky := kp.x + eDir.x * shift, kp.y + eDir.y * shift;
    var ecv := b.ec(kx, ky) - b.ev(kx, ky);
    if semiclassical then PointData(ecv, Zero, Zero)
    else
      var dip := Add(Scale(eDir.x, b.d01x(kx, ky)), Scale(eDir.y, b.d01y(kx, ky)));
      var ad := Sub(Add(Scale(eDir.x, b.d00x(kx, ky)), Scale(eDir.y, b.d00y(kx, ky))),
                    Add(Scale(eDir.x, b.d11x(kx, ky)), Scale(eDir.y, b.d11y(kx, ky))));
      PointData(ecv, dip, ad)
  }

  /** The band data `fvelocity` recomputes for the whole path, at every path
      point moved by `shift` (the real part of the last slot of y) along E_dir. */
  function ShiftedPath(b: Bands, eDir: Plane.Point, semiclassical: bool, kpath: seq<Plane.Point>, shift: real): (r: seq<PointData>)
    ensures |r| == |kpath|
  {
    seq(|kpath|, k requires 0 <= k < |kpath| => ShiftedPoint(b, eDir, semiclassical, kpath[k], shift))
  }

  /** The value of `fvelocity`: the kernel on the shifted band data, with no
      gradient terms. */
  function VelocityRhs(rt: Rates, b: Bands, eDir: Plane.Point, semiclassical: bool, e: real, y: Vec, kpath: seq<Plane.Point>, y0: Vec): (r: Vec)
    requires Layout(|kpath|, y, y0)
    ensures |r| == |y|
  {
    Kernel(rt, e, |kpath|, y, y0, ShiftedPath(b, eDir, semiclassical, kpath, y[|y| - 1].re), seq(|kpath|, k => NoGradient))
  }

  /** Before the vector potential builds up (its slot has real part 0) the
      velocity gauge evaluates the bands on the path itself. */
  lemma VelocityAtZeroShift(b: Bands, eDir: Plane.Point, semiclassical: bool, kpath: seq<Plane.Point>, k: nat)
    requires k < |kpath|
    ensures ShiftedPath(b, eDir, semiclassical, kpath, 0.0)[k].ecv == b.ec(kpath[k].x, kpath[k].y) - b.ev(kpath[k].x, kpath[k].y)
  {
    assert kpath[k].x + eDir.x * 0.0 == kpath[k].x;
    assert kpath[k].y + eDir.y * 0.0 == kpath[k].y;
  }

  /** The loop of `fvelocity`; the path arrays passed in are ignored and
      recomputed at the shifted points. */
  method FVelocity(rt: Rates, b: Bands, eDir: Plane.Point, semiclassical: bool, ef: real -> real, t: real,
                   y: Vec, kpath: seq<Plane.Point>, y0: Vec) returns (r: Vec)
    requires Layout(|kpath|, y, y0)
    ensures r == VelocityRhs(rt, b, eDir, semiclassical, ef(t), y, kpath, y0)
  {
    var nk := |kpath|;
    var data := ShiftedPath(b, eDir, semiclassical, kpath, y[|y| - 1].re);
    var grads := seq(nk, k => NoGradient);
    var e := ef(t);
    var x := new Complex[|y|](_ => Zero);
    FillKernel(x, rt, e, nk, y, y0, data, grads);
    return x[..];
  }

  // ---------------------------------------------------------------------
  // Gauge dispatch

  datatype Gauge = LengthGauge | VelocityGauge

  /** `make_fnumba`'s choice of kernel: anything but 'length' or 'velocity'
      raises AttributeError. */
  function MakeFnumba(gauge: string): (r: Result<Gauge, RhsError>)
    ensures r.Ok? <==> gauge == "length" || gauge == "velocity"
    ensures r == Ok(LengthGauge) <==> gauge == "length"
    ensures r.Err? ==> r.error == UnknownGauge
  {
    if gauge == "length" then Ok(LengthGauge)
    else if gauge == "velocity" then Ok(VelocityGauge)
    else Err(UnknownGauge)
  }

  /** The wrapper `f` that `make_fnumba` returns: the chosen kernel applied to
      the solver's arguments. */
  method Rhs(g: Gauge, rt: Rates, b: Bands, eDir: Plane.Point, semiclassical: bool, ef: real -> real, t: real,
             y: Vec, kpath: seq<Plane.Point>, dk: real, ecv: seq<real>, dipole: Vec, aDiag: Vec, y0: Vec)
    returns (r: Result<Vec, RhsError>)
    requires Layout(|kpath|, y, y0) && |ecv| == |kpath| && |dipole| == |kpath| && |aDiag| == |kpath|
    ensures g == LengthGauge ==> r == LengthRhs(rt, ef(t), dk, y, y0, ecv, dipole, aDiag)
    ensures g == VelocityGauge ==> r == Ok(VelocityRhs(rt, b, eDir, semiclassical, ef(t), y, kpath, y0))
  {
    if g == LengthGauge {
      r := FLength(rt, ef, t, y, kpath, dk, ecv, dipole, aDiag, y0);
    } else {
      var v := FVelocity(rt, b, eDir, semiclassical, ef, t, y, kpath, y0);
      r := Ok(v);
    }
  }

  // ---------------------------------------------------------------------
  // initial_condition

  /** `initial_condition(e_fermi, temperature, e_c)`: the 4 x K array with rows
      ones, zeros, zeros and the conduction-band occupation, flattened in
      Fortran order, so that point k occupies entries 4k .. 4k + 3. */
  function SbeInitialCondition(eFermi: real, temperature: real, ec: seq<real>, exp: real -> real): (r: seq<real>)
    requires CuedSetup.PositiveExp(exp)
    ensures |r| == 4 * |ec|
  {
    seq(4 * |ec|, j requires 0 <= j < 4 * |ec| =>
      var k, c := j / 4, j % 4;
      if c == 0 then 1.0 else if c == 3 then CuedSetup.Occupation(temperature, eFermi, exp, ec[k]) else 0.0)
  }

  /** Point k starts with a full valence band, no coherences and, at zero
      temperature, a conduction band that is full exactly when it lies
      strictly below the Fermi energy. */
  lemma SbeInitialLayout(eFermi: real, temperature: real, ec: seq<real>, exp: real -> real, k: nat)
    requires CuedSetup.PositiveExp(exp) && k < |ec|
    ensures var y0 := SbeInitialCondition(eFermi, temperature, ec, exp);
            && y0[4 * k] == 1.0 && y0[4 * k + 1] == 0.0 && y0[4 * k + 2] == 0.0
            && (temperature <= 0.00001 ==> (y0[4 * k + 3] == 1.0 <==> ec[k] < eFermi))
            && (temperature <= 0.00001 && y0[4 * k + 3] != 1.0 ==> y0[4 * k + 3] == 0.0)
  {
    Arith.RowMajor(4, k, 0);
    Arith.RowMajor(4, k, 1);
    Arith.RowMajor(4, k, 2);
    Arith.RowMajor(4, k, 3);
  }

  /** The solver's start vector: the occupations as complex numbers and a
      zero A-field slot (`np.append(y0, [0.0])`). */
  function StartVector(eFermi: real, temperature: real, ec: seq<real>, exp: real -> real): (r: Vec)
    requires CuedSetup.PositiveExp(exp)
    ensures |r| == 4 * |ec| + 1
  {
    var y0 := SbeInitialCondition(eFermi, temperature, ec, exp);
    seq(|y0|, j requires 0 <= j < |y0| => OfReal(y0[j])) + [Zero]
  }

  /** The start vector has no coherences, so without a field both kernels
      leave it at rest. */
  lemma StartVectorAtRest(rt: Rates, eFermi: real, temperature: real, ec: seq<real>, exp: real -> real,
                          data: seq<PointData>, j: nat)
    requires CuedSetup.PositiveExp(exp) && |data| == |ec|
    requires j < 4 * |ec| + 1
    ensures var y0 := StartVector(eFermi, temperature, ec, exp);
            Kernel(rt, 0.0, |ec|, y0, y0, data, seq(|ec|, k => NoGradient))[j] == Zero
  {
    var y0 := StartVector(eFermi, temperature, ec, exp);
    forall k | 0 <= k < |ec| ensures y0[4 * k + 1] == Zero && y0[4 * k + 2] == Zero {
      SbeInitialLayout(eFermi, temperature, ec, exp, k);
    }
    FieldFreeRest(rt, |ec|, y0, data, j);
  }

  // ---------------------------------------------------------------------
  // diff with np.gradient

  datatype GradientError = DifferentLengths | TooFewSamples

  /** `np.gradient` with unit spacing: centred differences inside, one-sided
      differences at both ends. */
  function NpGradient(y: seq<real>): (r: seq<real>)
    requires |y| >= 2
    ensures |r| == |y|
  {
    var n := |y|;
    seq(n, i requires 0 <= i < n =>
      if i == 0 then y[1] - y[0]
      else if i == n - 1 then y[n - 1] - y[n - 2]
      else (y[i + 1] - y[i - 1]) / 2.0)
  }

  /** `diff(x, y)` (sbe/solver/solver.py:314-325): a length mismatch raises,
      a single sample gives the scalar 0, and `np.gradient` raises on empty
      arrays. */
  function GradientDiff(x: seq<real>, y: seq<real>): (r: Result<Spectral.Derivative, GradientError>)
    ensures r == Err(DifferentLengths) <==> |x| != |y|
    ensures r == Err(TooFewSamples) <==> |x| == |y| == 0
    ensures r.Ok? ==> (r.value.ScalarZero? <==> |y| == 1)
    ensures r.Ok? && r.value.Pointwise? ==> |r.value.values| == |y|
  {
    if |x| != |y| then Err(DifferentLengths)
    else if |y| == 1 then Ok(Spectral.ScalarZero)
    else if |y| == 0 then Err(TooFewSamples)
    else
      var gx, gy := NpGradient(x), NpGradient(y);
      Ok(Spectral.Pointwise(seq(|y|, i requires 0 <= i < |y| => Spectral.Quotient(gy[i], gx[i]))))
  }

  /** Inside the axis this derivative is the centred difference of the cued
      solver's periodic `diff`; only the two end points differ. */
  lemma GradientDiffInterior(x: seq<real>, y: seq<real>, i: nat)
    requires |x| == |y| && 0 < i < |y| - 1
    ensures GradientDiff(x, y).value.values[i] == Spectral.Stencil(x, y, i)
  {
    var n := |y|;
    Arith.DivModUnique(i + 1, n, 0, i + 1);
    Arith.DivModUnique(i - 1, n, 0, i - 1);
    var dy, dx := y[i + 1] - y[i - 1], x[i + 1] - x[i - 1];
    if dx != 0.0 {
      assert (dy / 2.0) / (dx / 2.0) == dy / dx;
    }
  }

  /** The end points use one-sided differences. */
  lemma GradientDiffEnds(x: seq<real>, y: seq<real>)
    requires |x| == |y| >= 2
    ensures GradientDiff(x, y).value.values[0] == Spectral.Quotient(y[1] - y[0], x[1] - x[0])
    ensures GradientDiff(x, y).value.values[|y| - 1] == Spectral.Quotient(y[|y| - 1] - y[|y| - 2], x[|y| - 1] - x[|y| - 2])
  {
  }

  /** The derivative is exact on affine data at every point, the ends
      included, where the abscissae of the stencil differ. */
  lemma GradientDiffOfAffine(x: seq<real>, y: seq<real>, a: real, b: real, i: nat)
    requires |x| == |y| >= 2 && i < |y|
    requires forall j :: 0 <= j < |y| ==> y[j] == a * x[j] + b
    requires NpGradient(x)[i] != 0.0
    ensures GradientDiff(x, y).value.values[i] == Spectral.Finite(a)
  {
    var n := |y|;
    var gx, gy := NpGradient(x), NpGradient(y);
    if i == 0 {
      assert gy[i] == a * (x[1] - x[0]);
    } else if i == n - 1 {
      assert gy[i] == a * (x[n - 1] - x[n - 2]);
    } else {
      assert gy[i] == a * ((x[i + 1] - x[i - 1]) / 2.0);
    }
    assert gy[i] == a * gx[i];
  }
}
