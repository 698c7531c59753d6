/** The fixed-step integrator `rk_integrate` of cued/main.py:394-403, generic
    over the right-hand side `rhs_ode(t, y)`, which is built in
    `cued.rhs_ode` (not part of this model) and appears here as a function value. */
module RungeKutta {
  import opened Cplx

  type Rhs = (real, Vec) -> Vec

  /** Every right-hand side the solver builds maps a state to a state of the same length. */
  ghost predicate PreservesLength(f: Rhs)
  {
    forall t, y :: |f(t, y)| == |y|
  }

  /** The four-stage step with stage gain g: the stage states are
      y + g/2 k1, y + g/2 k2 and y + g k3, the stage times t, t + dt/2,
      t + dt/2 and t + dt, and the update y + dt/6 (k1 + 2 k2 + 2 k3 + k4). */
  function FourStage(f: Rhs, t: real, y: Vec, dt: real, g: real): (r: Vec)
    requires PreservesLength(f)
    ensures |r| == |y|
  {
    var k1 := f(t, y);
    var k2 := f(t + 0.5 * dt, Shift(y, 0.5 * g, k1));
    var k3 := f(t + 0.5 * dt, Shift(y, 0.5 * g, k2));
    var k4 := f(t + dt, Shift(y, g, k3));
    Combine(y, dt / 6.0, k1, k2, k3, k4)
  }

  function Shift(y: Vec, c: real, k: Vec): (r: Vec)
    requires |k| == |y|
    ensures |r| == |y|
  {
    seq(|y|, i requires 0 <= i < |y| => Add(y[i], Scale(c, k[i])))
  }

  function Combine(y: Vec, h: real, k1: Vec, k2: Vec, k3: Vec, k4: Vec): (r: Vec)
    requires |k1| == |y| && |k2| == |y| && |k3| == |y| && |k4| == |y|
    ensures |r| == |y|
  {
    seq(|y|, i requires 0 <= i < |y| =>
      Add(y[i], Scale(h, Add(Add(Add(k1[i], Scale(2.0, k2[i])), Scale(2.0, k3[i])), k4[i]))))
  }

  /** `rk_integrate` as written: the stage states carry no factor dt
      (`y + 0.5*k1`, `y + 0.5*k2`, `y + k3`). */
  function RkIntegrateAsWritten(f: Rhs, t: real, y: Vec, dt: real): (r: Vec)
    requires PreservesLength(f)
    ensures |r| == |y|
  {
    FourStage(f, t, y, dt, 1.0)
  }

  /** The classical fourth-order Runge-Kutta step the routine is meant to be:
      stage states y + dt/2 k1, y + dt/2 k2 and y + dt k3.  The time loop uses this one. */
  function RkIntegrate(f: Rhs, t: real, y: Vec, dt: real): (r: Vec)
    requires PreservesLength(f)
    ensures |r| == |y|
  {
    FourStage(f, t, y, dt, dt)
  }

  /** A state-independent right-hand side f(t, y) = c (for states of c's length). */
  function ConstantRhs(c: Vec): Rhs
  {
    (t: real, y: Vec) => if |y| == |c| then c else ZeroVec(|y|)
  }

  /** The linear right-hand side f(t, y) = lam y. */
  function LinearRhs(lam: real): Rhs
  {
    (t: real, y: Vec) => VScale(lam, y)
  }

  /** The amplification factor of FourStage on f(t, y) = lam y. */
  function LinearGain(lam: real, dt: real, g: real): real
  {
    var c1 := lam;
    var c2 := lam * (1.0 + 0.5 * g * c1);
    var c3 := lam * (1.0 + 0.5 * g * c2);
    var c4 := lam * (1.0 + g * c3);
    1.0 + dt / 6.0 * (c1 + 2.0 * c2 + 2.0 * c3 + c4)
  }

  /** The degree-four Taylor polynomial of exp(z). */
  function Taylor4(z: real): real
  {
    1.0 + z + z * z / 2.0 + z * z * z / 6.0 + z * z * z * z / 24.0
  }

  /** Both steps keep a state whose right-hand side vanishes. */
  lemma {:induction false} ZeroRhsFixesState(t: real, y: Vec, dt: real)
    ensures RkIntegrateAsWritten(ConstantRhs(ZeroVec(|y|)), t, y, dt) == y
    ensures RkIntegrate(ConstantRhs(ZeroVec(|y|)), t, y, dt) == y
  {
    ConstantStepIsExact(ZeroVec(|y|), t, y, dt, 1.0);
    ConstantStepIsExact(ZeroVec(|y|), t, y, dt, dt);
    assert VScale(dt, ZeroVec(|y|)) == ZeroVec(|y|);
    assert VAdd(y, ZeroVec(|y|)) == y;
  }

  /** With a constant right-hand side c, any stage gain gives y + dt c. */
  lemma ConstantStepIsExact(c: Vec, t: real, y: Vec, dt: real, g: real)
    requires |y| == |c|
    ensures PreservesLength(ConstantRhs(c))
    ensures FourStage(ConstantRhs(c), t, y, dt, g) == VAdd(y, VScale(dt, c))
  {
    var f := ConstantRhs(c);
    var s := VAdd(VAdd(VAdd(c, VScale(2.0, c)), VScale(2.0, c)), c);
    VScaleOne(c);
    VAddScales(1.0, 2.0, c);
    VAddScales(3.0, 2.0, c);
    VAddScales(5.0, 1.0, c);
    assert s == VScale(6.0, c);
    VScaleCompose(dt / 6.0, 6.0, c);
  }

  /** One stage on f(t, y) = lam y: evaluating at y + a k with k = b y gives
      lam (1 + a b) y. */
  lemma LinearStage(lam: real, s: real, a: real, b: real, y: Vec, k: Vec)
    requires k == VScale(b, y)
    ensures LinearRhs(lam)(s, VAdd(y, VScale(a, k))) == VScale(lam * (1.0 + a * b), y)
  {
    var r := VScale(lam, VAdd(y, VScale(a, k)));
    forall i | 0 <= i < |y| ensures r[i] == VScale(lam * (1.0 + a * b), y)[i] {
      assert lam * (y[i].re + a * (b * y[i].re)) == lam * (1.0 + a * b) * y[i].re;
      assert lam * (y[i].im + a * (b * y[i].im)) == lam * (1.0 + a * b) * y[i].im;
    }
  }

  /** The final combination y + dt/6 (k1 + 2 k2 + 2 k3 + k4) of multiples of y. */
  lemma LinearCombination(dt: real, c1: real, c2: real, c3: real, c4: real, y: Vec)
    ensures VAdd(y, VScale(dt / 6.0, VAdd(VAdd(VAdd(VScale(c1, y), VScale(2.0, VScale(c2, y))),
                                                VScale(2.0, VScale(c3, y))), VScale(c4, y))))
         == VScale(1.0 + dt / 6.0 * (c1 + 2.0 * c2 + 2.0 * c3 + c4), y)
  {
    var m := 1.0 + dt / 6.0 * (c1 + 2.0 * c2 + 2.0 * c3 + c4);
    var w1 := VAdd(VScale(c1, y), VScale(2.0, VScale(c2, y)));
    var w2 := VAdd(w1, VScale(2.0, VScale(c3, y)));
    var w3 := VAdd(w2, VScale(c4, y));
    var lhs := VAdd(y, VScale(dt / 6.0, w3));
    forall i | 0 <= i < |y| ensures lhs[i] == VScale(m, y)[i] {
      var u, v := y[i].re, y[i].im;
      assert w1[i] == Complex(c1 * u + 2.0 * (c2 * u), c1 * v + 2.0 * (c2 * v));
      assert w2[i] == Complex(w1[i].re + 2.0 * (c3 * u), w1[i].im + 2.0 * (c3 * v));
      assert w3[i] == Complex(w2[i].re + c4 * u, w2[i].im + c4 * v);
      assert lhs[i] == Complex(u + dt / 6.0 * w3[i].re, v + dt / 6.0 * w3[i].im);
      assert u + dt / 6.0 * (c1 * u + 2.0 * (c2 * u) + 2.0 * (c3 * u) + c4 * u) == m * u;
      assert v + dt / 6.0 * (c1 * v + 2.0 * (c2 * v) + 2.0 * (c3 * v) + c4 * v) == m * v;
    }
  }

  /** On f(t, y) = lam y, FourStage multiplies the state by LinearGain. */
  lemma LinearStep(lam: real, t: real, y: Vec, dt: real, g: real)
    ensures PreservesLength(LinearRhs(lam))
    ensures FourStage(LinearRhs(lam), t, y, dt, g) == VScale(LinearGain(lam, dt, g), y)
  {
    var half := 0.5 * g;
    var c1 := lam;
    var c2 := lam * (1.0 + half * c1);
    var c3 := lam * (1.0 + half * c2);
    var c4 := lam * (1.0 + g * c3);
    var f := LinearRhs(lam);
    var k1 := f(t, y);
    assert k1 == VScale(c1, y);
    LinearStage(lam, t + 0.5 * dt, half, c1, y, k1);
    var k2 := f(t + 0.5 * dt, VAdd(y, VScale(half, k1)));
    LinearStage(lam, t + 0.5 * dt, half, c2, y, k2);
    var k3 := f(t + 0.5 * dt, VAdd(y, VScale(half, k2)));
    LinearStage(lam, t + dt, g, c3, y, k3);
    var k4 := f(t + dt, VAdd(y, VScale(g, k3)));
    LinearCombination(dt, c1, c2, c3, c4, y);
    assert LinearGain(lam, dt, g) == 1.0 + dt / 6.0 * (c1 + 2.0 * c2 + 2.0 * c3 + c4);
  }

  /** The corrected step is fourth order: on y' = lam y it multiplies the state
      by the Taylor polynomial of exp(lam dt) up to degree four. */
  lemma ClassicalStepIsTaylor(lam: real, t: real, y: Vec, dt: real)
    ensures PreservesLength(LinearRhs(lam))
    ensures RkIntegrate(LinearRhs(lam), t, y, dt) == VScale(Taylor4(lam * dt), y)
  {
    LinearStep(lam, t, y, dt, dt);
    var z := lam * dt;
    assert LinearGain(lam, dt, dt) == Taylor4(z);
  }

  /** At dt = 1 the step as written coincides with the classical one. */
  lemma AsWrittenAgreesAtUnitStep(f: Rhs, t: real, y: Vec)
    requires PreservesLength(f)
    ensures RkIntegrateAsWritten(f, t, y, 1.0) == RkIntegrate(f, t, y, 1.0)
  {
  }

  /** y' = y from y = 1 with dt = 1/2: the step as written gives 89/48 = 1.854...,
      the classical step 211/128 = 1.648..., against exp(1/2) = 1.6487... */
  lemma AsWrittenOvershoots()
    ensures PreservesLength(LinearRhs(1.0))
    ensures RkIntegrateAsWritten(LinearRhs(1.0), 0.0, [One], 0.5) == [Complex(89.0 / 48.0, 0.0)]
    ensures RkIntegrate(LinearRhs(1.0), 0.0, [One], 0.5) == [Complex(211.0 / 128.0, 0.0)]
  {
    LinearStep(1.0, 0.0, [One], 0.5, 1.0);
    assert LinearGain(1.0, 0.5, 1.0) == 89.0 / 48.0;
    ClassicalStepIsTaylor(1.0, 0.0, [One], 0.5);
    assert Taylor4(0.5) == 211.0 / 128.0;
  }
}
