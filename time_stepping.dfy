/** The time-stepping driver of the cued solver (cued/main.py `run_sbe`,
    `calculate_solution_at_timestep`, `calculate_currents`): for every local
    path the state is sampled, its currents are added into the time-indexed
    arrays of the container T, and the integrator advances, until Nt steps are
    done or the adaptive integrator reports failure.  The adaptive integrator
    (scipy `ode` with zvode), the right-hand side, the electric field and the
    current observables are outside this model and are passed in as function
    values. */
module TimeStepping {
  import opened Cplx
  import opened Outcomes
  import RungeKutta

  datatype SolverMethod = Bdf | Adams | Rk4

  /** The run parameters the loop reads from P. */
  datatype Config = Config(
    nt: nat, dt: real, t0: real, solverMethod: SolverMethod,
    saveFull: bool, splitCurrent: bool, userOut: bool, nBands: nat)

  /** The adaptive integrator object: `set_initial_value(y0, t0)` together with
      `set_f_params` for path `idx`, `integrate(t_end)`, `t`, `y`, `successful()`. */
  datatype Ode<!S> = Ode(
    setInitial: (S, nat, Vec, real) -> S,
    integrate: (S, real) -> S,
    time: S -> real,
    y: S -> Vec,
    successful: S -> bool)

  /** The system-dependent parts: E(t), the initial density matrix of a path
      (flattened), the rhs of a path for rk4, and the path observables
      built by `prepare_current_calculations`, each applied to
      (path index, solution, E, A). */
  datatype Physics = Physics(
    electricField: real -> real,
    initial: nat -> Vec,
    rhsFor: nat -> RungeKutta.Rhs,
    currentExact: (nat, Vec, real, real) -> (real, real),
    polarizationInter: (nat, Vec, real, real) -> (real, real),
    currentIntra: (nat, Vec, real, real) -> (real, real, seq<real>))

  /** What the integrator and the observables promise: the rhs and the
      integrator keep the state length, a fresh initial value is the state,
      and the anomalous current has one entry per band. */
  ghost predicate WellFormed<S(!new)>(cfg: Config, ph: Physics, ode: Ode<S>)
  {
    && (forall idx :: RungeKutta.PreservesLength(ph.rhsFor(idx)))
    && (forall s, te :: |ode.y(ode.integrate(s, te))| == |ode.y(s)|)
    && (forall s, idx, v, t0 :: ode.y(ode.setInitial(s, idx, v, t0)) == v)
    && (forall idx, y, e, a :: |ph.currentIntra(idx, y, e, a).2| == cfg.nBands)
  }

  function Adaptive(cfg: Config): bool { cfg.solverMethod != Rk4 }

  /** The abstract state of the container T. */
  datatype TimeData = TimeData(
    t: seq<real>, aField: seq<real>, eField: seq<real>,
    jEDir: seq<real>, jOrtho: seq<real>,
    pEDir: seq<real>, pOrtho: seq<real>,
    jIntraEDir: seq<real>, jIntraOrtho: seq<real>,
    jAnomOrtho: seq<seq<real>>,
    solution: Vec,
    solutionYVec: Vec,
    solutionFull: map<(nat, nat), Vec>,
    progress: seq<(nat, nat)>)

  /** Every time-indexed array has Nt entries, `j_anom_ortho` has n columns. */
  ghost predicate Shape(cfg: Config, d: TimeData)
  {
    && |d.t| == cfg.nt && |d.aField| == cfg.nt && |d.eField| == cfg.nt
    && |d.jEDir| == cfg.nt && |d.jOrtho| == cfg.nt
    && |d.pEDir| == cfg.nt && |d.pOrtho| == cfg.nt
    && |d.jIntraEDir| == cfg.nt && |d.jIntraOrtho| == cfg.nt
    && |d.jAnomOrtho| == cfg.nt
    && (forall k :: 0 <= k < cfg.nt ==> |d.jAnomOrtho[k]| == cfg.nBands)
  }

  /** The current solver state vector: `T.solution_y_vec` for rk4, `solver.y` otherwise. */
  function CurrentY<S(!new)>(cfg: Config, ode: Ode<S>, d: TimeData, s: S): Vec
  {
    if Adaptive(cfg) then ode.y(s) else d.solutionYVec
  }

  /** The state vector has the trailing A-field slot. */
  ghost predicate HasFieldSlot<S(!new)>(cfg: Config, ode: Ode<S>, d: TimeData, s: S)
  {
    |CurrentY(cfg, ode, d, s)| >= 1
  }

  function RowAdd(row: seq<real>, buf: seq<real>): (r: seq<real>)
    requires |row| == |buf|
    ensures |r| == |row| && forall k :: 0 <= k < |row| ==> r[k] == row[k] + buf[k]
  {
    seq(|row|, k requires 0 <= k < |row| => row[k] + buf[k])
  }

  // ---------------------------------------------------------------------
  // The progress guard

  datatype Fault = ZeroDivision

  /** The guard at cued/main.py:198 as written: `ti % (Nt//20)` is evaluated
      before `user_out` is looked at, and divides by zero when Nt < 20. */
  function ProgressDueAsWritten(ti: nat, nt: nat, userOut: bool): (r: Result<bool, Fault>)
    ensures r.Err? <==> nt / 20 == 0
  {
    if nt / 20 == 0 then Err(ZeroDivision) else Ok(ti % (nt / 20) == 0 && userOut)
  }

  /** The guard as intended: report every `max(1, Nt//20)` steps when asked to. */
  function ProgressDue(ti: nat, nt: nat, userOut: bool): (r: bool)
    ensures r ==> userOut
    ensures userOut && ti == 0 ==> r
  {
    var every := if nt / 20 == 0 then 1 else nt / 20;
    userOut && ti % every == 0
  }

  /** Any run with 0 < Nt < 20 aborts at its first step, whether or not
      progress output was asked for. */
  lemma ShortRunsAbort(nt: nat, userOut: bool)
    requires 0 < nt < 20
    ensures ProgressDueAsWritten(0, nt, userOut) == Err(ZeroDivision)
  {
  }

  /** Where the guard as written is defined, the corrected guard agrees with it. */
  lemma ProgressDueAgrees(ti: nat, nt: nat, userOut: bool)
    requires nt >= 20
    ensures ProgressDueAsWritten(ti, nt, userOut) == Ok(ProgressDue(ti, nt, userOut))
  {
  }

  // ---------------------------------------------------------------------
  // One iteration of the time loop, as functions of the container state

  /** The progress line of step ti: recorded exactly when the corrected guard
      is due; nothing else in the container changes. */
  function Report(cfg: Config, d: TimeData, idx: nat, ti: nat): (r: TimeData)
    ensures r.(progress := d.progress) == d
    ensures ProgressDue(ti, cfg.nt, cfg.userOut) <==> r.progress == d.progress + [(idx, ti)]
    ensures !ProgressDue(ti, cfg.nt, cfg.userOut) ==> r.progress == d.progress
  {
    if ProgressDue(ti, cfg.nt, cfg.userOut) then d.(progress := d.progress + [(idx, ti)]) else d
  }

  /** The state without its trailing A-field slot (`y[:-1]`). */
  function SolutionOf(y: Vec): (r: Vec)
    requires |y| >= 1
    ensures |r| == |y| - 1 && forall k :: 0 <= k < |r| ==> r[k] == y[k]
  {
    y[..|y| - 1]
  }

  /** The sample time of step ti: the integrator's own time, or ti dt + t0 for rk4. */
  function SampleTime<S(!new)>(cfg: Config, ode: Ode<S>, s: S, ti: nat): real
  {
    if Adaptive(cfg) then ode.time(s) else ti as real * cfg.dt + cfg.t0
  }

  /** Entry ti of the time axis and of the two fields, written by the first local path. */
  function RecordFields(ph: Physics, d: TimeData, ti: nat, tt: real, a: real): (r: TimeData)
    requires ti < |d.t| && ti < |d.aField| && ti < |d.eField|
    ensures |r.t| == |d.t| && |r.aField| == |d.aField| && |r.eField| == |d.eField|
  {
    d.(t := d.t[ti := tt], aField := d.aField[ti := a], eField := d.eField[ti := ph.electricField(tt)])
  }

  /** `calculate_solution_at_timestep`: the solution without the A-field slot
      becomes `T.solution`; on the first local path the time, A-field and
      E-field of step ti are recorded; with save_full the solution is stored. */
  function Sample<S(!new)>(cfg: Config, ph: Physics, ode: Ode<S>, d: TimeData, s: S,
                     idx: nat, ti: nat, isFirst: bool): (r: TimeData)
    requires Shape(cfg, d) && HasFieldSlot(cfg, ode, d, s) && ti < cfg.nt
    ensures Shape(cfg, r) && r.solutionYVec == d.solutionYVec
  {
    var y := CurrentY(cfg, ode, d, s);
    var d1 := d.(solution := SolutionOf(y));
    var d2 := if isFirst then RecordFields(ph, d1, ti, SampleTime(cfg, ode, s, ti), y[|y| - 1].re) else d1;
    if cfg.saveFull then d2.(solutionFull := d2.solutionFull[(idx, ti) := d2.solution]) else d2
  }

  /** `calculate_currents`: the observables of `T.solution` at the stored E and
      A of step ti are added into entry ti of the current arrays. */
  function Accumulate(cfg: Config, ph: Physics, d: TimeData, idx: nat, ti: nat): (r: TimeData)
    requires Shape(cfg, d) && ti < cfg.nt
    requires forall idx, y, e, a :: |ph.currentIntra(idx, y, e, a).2| == cfg.nBands
    ensures Shape(cfg, r)
  {
    var e, a := d.eField[ti], d.aField[ti];
    var exact := ph.currentExact(idx, d.solution, e, a);
    var d1 := d.(jEDir := d.jEDir[ti := d.jEDir[ti] + exact.0],
                 jOrtho := d.jOrtho[ti := d.jOrtho[ti] + exact.1]);
    if cfg.splitCurrent then
      var pol := ph.polarizationInter(idx, d.solution, e, a);
      var intra := ph.currentIntra(idx, d.solution, e, a);
      d1.(pEDir := d1.pEDir[ti := d1.pEDir[ti] + pol.0],
          pOrtho := d1.pOrtho[ti := d1.pOrtho[ti] + pol.1],
          jIntraEDir := d1.jIntraEDir[ti := d1.jIntraEDir[ti] + intra.0],
          jIntraOrtho := d1.jIntraOrtho[ti := d1.jIntraOrtho[ti] + intra.1],
          jAnomOrtho := d1.jAnomOrtho[ti := RowAdd(d1.jAnomOrtho[ti], intra.2)])
    else d1
  }

  /** The state after one iteration: the container, the integrator object and
      the success flag. */
  datatype StepState<S> = StepState(d: TimeData, s: S, ok: bool)

  /** The integration step: `solver.integrate(solver.t + dt)` and
      `successful()`, or the corrected classical rk4 step from `T.t[ti]`. */
  function Advance<S(!new)>(cfg: Config, ph: Physics, ode: Ode<S>, d: TimeData, s: S,
                      idx: nat, ti: nat): (r: StepState<S>)
    requires WellFormed(cfg, ph, ode) && Shape(cfg, d) && HasFieldSlot(cfg, ode, d, s) && ti < cfg.nt
    ensures Shape(cfg, r.d) && HasFieldSlot(cfg, ode, r.d, r.s)
    ensures !Adaptive(cfg) ==> r.ok && r.s == s
    ensures Adaptive(cfg) ==> r.d == d
  {
    if Adaptive(cfg) then
      var s1 := ode.integrate(s, ode.time(s) + cfg.dt);
      StepState(d, s1, ode.successful(s1))
    else
      StepState(d.(solutionYVec := RungeKutta.RkIntegrate(ph.rhsFor(idx), d.t[ti], d.solutionYVec, cfg.dt)), s, true)
  }

  /** One pass of the loop body of cued/main.py:196-216. */
  function Step<S(!new)>(cfg: Config, ph: Physics, ode: Ode<S>, d: TimeData, s: S,
                   idx: nat, ti: nat, isFirst: bool): (r: StepState<S>)
    requires WellFormed(cfg, ph, ode) && Shape(cfg, d) && HasFieldSlot(cfg, ode, d, s) && ti < cfg.nt
    ensures Shape(cfg, r.d) && HasFieldSlot(cfg, ode, r.d, r.s)
    ensures !Adaptive(cfg) ==> r.ok && r.s == s
    ensures Adaptive(cfg) ==> r.s == ode.integrate(s, ode.time(s) + cfg.dt) && r.ok == ode.successful(r.s)
  {
    var d1 := Report(cfg, d, idx, ti);
    var d2 := Sample(cfg, ph, ode, d1, s, idx, ti, isFirst);
    var d3 := Accumulate(cfg, ph, d2, idx, ti);
    Advance(cfg, ph, ode, d3, s, idx, ti)
  }

  /** The loop `while solver_successful and ti < Nt` from step ti on. */
  function RunPath<S(!new)>(cfg: Config, ph: Physics, ode: Ode<S>, d: TimeData, s: S,
                      idx: nat, isFirst: bool, ti: nat, ok: bool): (r: StepState<S>)
    requires WellFormed(cfg, ph, ode) && Shape(cfg, d) && HasFieldSlot(cfg, ode, d, s)
    ensures Shape(cfg, r.d) && HasFieldSlot(cfg, ode, r.d, r.s)
    decreases cfg.nt - ti
  {
    if ok && ti < cfg.nt then
      var n := Step(cfg, ph, ode, d, s, idx, ti, isFirst);
      RunPath(cfg, ph, ode, n.d, n.s, idx, isFirst, ti + 1, n.ok)
    else StepState(d, s, ok)
  }

  /** The start of a path: y0 is the initial density matrix with a zero
      A-field slot appended, given to the integrator or to `T.solution_y_vec`. */
  function StartPath<S(!new)>(cfg: Config, ph: Physics, ode: Ode<S>, d: TimeData, s: S, idx: nat): (r: StepState<S>)
    requires WellFormed(cfg, ph, ode)
    ensures HasFieldSlot(cfg, ode, r.d, r.s) && r.ok
    ensures CurrentY(cfg, ode, r.d, r.s) == ph.initial(idx) + [Zero]
    ensures Adaptive(cfg) ==> r.d == d
    ensures !Adaptive(cfg) ==> r.s == s && r.d == d.(solutionYVec := ph.initial(idx) + [Zero])
  {
    var y0 := ph.initial(idx) + [Zero];
    if Adaptive(cfg) then StepState(d, ode.setInitial(s, idx, y0, cfg.t0), true)
    else StepState(d.(solutionYVec := y0), s, true)
  }

  /** A whole path: its start and its time loop.  The time axis and the fields
      are recorded when the path is the first of the local list. */
  function PathEnd<S(!new)>(cfg: Config, ph: Physics, ode: Ode<S>, d: TimeData, s: S,
                            idx: nat, firstIdx: nat): (r: StepState<S>)
    requires WellFormed(cfg, ph, ode) && Shape(cfg, d)
    ensures Shape(cfg, r.d)
  {
    var st := StartPath(cfg, ph, ode, d, s, idx);
    RunPath(cfg, ph, ode, st.d, st.s, idx, firstIdx == idx, 0, true)
  }

  /** The path loop of `run_sbe` after its first n iterations. */
  function RunPaths<S(!new)>(cfg: Config, ph: Physics, ode: Ode<S>, d: TimeData, s: S,
                             paths: seq<nat>, n: nat): (r: StepState<S>)
    requires WellFormed(cfg, ph, ode) && Shape(cfg, d) && n <= |paths|
    ensures Shape(cfg, r.d)
  {
    if n == 0 then StepState(d, s, true)
    else
      var before := RunPaths(cfg, ph, ode, d, s, paths, n - 1);
      PathEnd(cfg, ph, ode, before.d, before.s, paths[n - 1], paths[0])
  }

  // ---------------------------------------------------------------------
  // Properties of the time loop

  /** Two container states agree at time index k in every time-indexed array. */
  ghost predicate SameAt(d: TimeData, e: TimeData, k: nat)
    requires k < |d.t| && k < |e.t| && k < |d.aField| && k < |e.aField| && k < |d.eField| && k < |e.eField|
    requires k < |d.jEDir| && k < |e.jEDir| && k < |d.jOrtho| && k < |e.jOrtho|
    requires k < |d.pEDir| && k < |e.pEDir| && k < |d.pOrtho| && k < |e.pOrtho|
    requires k < |d.jIntraEDir| && k < |e.jIntraEDir| && k < |d.jIntraOrtho| && k < |e.jIntraOrtho|
    requires k < |d.jAnomOrtho| && k < |e.jAnomOrtho|
  {
    && d.t[k] == e.t[k] && d.aField[k] == e.aField[k] && d.eField[k] == e.eField[k]
    && d.jEDir[k] == e.jEDir[k] && d.jOrtho[k] == e.jOrtho[k]
    && d.pEDir[k] == e.pEDir[k] && d.pOrtho[k] == e.pOrtho[k]
    && d.jIntraEDir[k] == e.jIntraEDir[k] && d.jIntraOrtho[k] == e.jIntraOrtho[k]
    && d.jAnomOrtho[k] == e.jAnomOrtho[k]
  }

  /** The number of samples the loop takes from step ti on: all remaining
      steps for rk4; for bdf and adams, up to and including the first step
      after which the integrator reports failure. */
  ghost function Steps<S(!new)>(cfg: Config, ode: Ode<S>, s: S, ti: nat, ok: bool): nat
    decreases cfg.nt - ti
  {
    if !ok || ti >= cfg.nt then 0
    else if !Adaptive(cfg) then cfg.nt - ti
    else
      var s1 := ode.integrate(s, ode.time(s) + cfg.dt);
      1 + Steps(cfg, ode, s1, ti + 1, ode.successful(s1))
  }

  lemma SameAtTrans(d: TimeData, e: TimeData, f: TimeData, k: nat)
    requires k < |d.t| && k < |d.aField| && k < |d.eField| && k < |d.jEDir| && k < |d.jOrtho|
    requires k < |d.pEDir| && k < |d.pOrtho| && k < |d.jIntraEDir| && k < |d.jIntraOrtho| && k < |d.jAnomOrtho|
    requires k < |e.t| && k < |e.aField| && k < |e.eField| && k < |e.jEDir| && k < |e.jOrtho|
    requires k < |e.pEDir| && k < |e.pOrtho| && k < |e.jIntraEDir| && k < |e.jIntraOrtho| && k < |e.jAnomOrtho|
    requires k < |f.t| && k < |f.aField| && k < |f.eField| && k < |f.jEDir| && k < |f.jOrtho|
    requires k < |f.pEDir| && k < |f.pOrtho| && k < |f.jIntraEDir| && k < |f.jIntraOrtho| && k < |f.jAnomOrtho|
    requires SameAt(d, e, k) && SameAt(e, f, k)
    ensures SameAt(d, f, k)
  {
  }

  lemma SampleTouchesOnlyItsIndex<S(!new)>(cfg: Config, ph: Physics, ode: Ode<S>, d: TimeData, s: S,
                                           idx: nat, ti: nat, isFirst: bool, k: nat)
    requires Shape(cfg, d) && HasFieldSlot(cfg, ode, d, s) && ti < cfg.nt
    requires k < cfg.nt && k != ti
    ensures SameAt(d, Sample(cfg, ph, ode, d, s, idx, ti, isFirst), k)
  {
  }

  lemma AccumulateTouchesOnlyItsIndex(cfg: Config, ph: Physics, d: TimeData, idx: nat, ti: nat, k: nat)
    requires Shape(cfg, d) && ti < cfg.nt
    requires forall idx, y, e, a :: |ph.currentIntra(idx, y, e, a).2| == cfg.nBands
    requires k < cfg.nt && k != ti
    ensures SameAt(d, Accumulate(cfg, ph, d, idx, ti), k)
  {
  }

  /** One iteration writes only entry ti of the time-indexed arrays. */
  lemma StepTouchesOnlyItsIndex<S(!new)>(cfg: Config, ph: Physics, ode: Ode<S>, d: TimeData, s: S,
                                         idx: nat, ti: nat, isFirst: bool, k: nat)
    requires WellFormed(cfg, ph, ode) && Shape(cfg, d) && HasFieldSlot(cfg, ode, d, s) && ti < cfg.nt
    requires k < cfg.nt && k != ti
    ensures SameAt(d, Step(cfg, ph, ode, d, s, idx, ti, isFirst).d, k)
  {
    var d1 := Report(cfg, d, idx, ti);
    var d2 := Sample(cfg, ph, ode, d1, s, idx, ti, isFirst);
    var d3 := Accumulate(cfg, ph, d2, idx, ti);
    var d4 := Advance(cfg, ph, ode, d3, s, idx, ti).d;
    SampleTouchesOnlyItsIndex(cfg, ph, ode, d1, s, idx, ti, isFirst, k);
    AccumulateTouchesOnlyItsIndex(cfg, ph, d2, idx, ti, k);
    assert SameAt(d3, d4, k);
    SameAtTrans(d1, d2, d3, k);
    SameAtTrans(d1, d3, d4, k);
  }

  /** The loop from step ti writes only the entries ti, ..., ti + Steps - 1. */
  lemma {:induction false} RunPathTouchesOnlyItsSteps<S(!new)>(
    cfg: Config, ph: Physics, ode: Ode<S>, d: TimeData, s: S,
    idx: nat, isFirst: bool, ti: nat, ok: bool, k: nat)
    requires WellFormed(cfg, ph, ode) && Shape(cfg, d) && HasFieldSlot(cfg, ode, d, s)
    requires k < cfg.nt && (k < ti || k >= ti + Steps(cfg, ode, s, ti, ok))
    ensures SameAt(d, RunPath(cfg, ph, ode, d, s, idx, isFirst, ti, ok).d, k)
    decreases cfg.nt - ti
  {
    if ok && ti < cfg.nt {
      var n := Step(cfg, ph, ode, d, s, idx, ti, isFirst);
      var rest := RunPath(cfg, ph, ode, n.d, n.s, idx, isFirst, ti + 1, n.ok);
      assert RunPath(cfg, ph, ode, d, s, idx, isFirst, ti, ok) == rest;
      assert Steps(cfg, ode, s, ti, ok) == 1 + Steps(cfg, ode, n.s, ti + 1, n.ok);
      StepTouchesOnlyItsIndex(cfg, ph, ode, d, s, idx, ti, isFirst, k);
      RunPathTouchesOnlyItsSteps(cfg, ph, ode, n.d, n.s, idx, isFirst, ti + 1, n.ok, k);
      SameAtTrans(d, n.d, rest.d, k);
    }
  }

  /** The integrator object after j adaptive steps of length dt. */
  ghost function OdeStates<S(!new)>(ode: Ode<S>, dt: real, s: S, j: nat): S
  {
    if j == 0 then s else OdeStates(ode, dt, ode.integrate(s, ode.time(s) + dt), j - 1)
  }

  /** With bdf or adams, when the integrator succeeds for j steps and fails on
      step j + 1, the loop takes exactly j + 1 samples (if Nt allows them). */
  lemma {:induction false} AdaptiveStopsAfterFailure<S(!new)>(cfg: Config, ode: Ode<S>, s: S, ti: nat, j: nat)
    requires Adaptive(cfg) && ti + j < cfg.nt
    requires forall m :: 1 <= m <= j ==> ode.successful(OdeStates(ode, cfg.dt, s, m))
    requires !ode.successful(OdeStates(ode, cfg.dt, s, j + 1))
    ensures Steps(cfg, ode, s, ti, true) == j + 1
    decreases j
  {
    var s1 := ode.integrate(s, ode.time(s) + cfg.dt);
    if j > 0 {
      forall m | 1 <= m <= j - 1 ensures ode.successful(OdeStates(ode, cfg.dt, s1, m)) {
        assert OdeStates(ode, cfg.dt, s, m + 1) == OdeStates(ode, cfg.dt, s1, m);
      }
      assert OdeStates(ode, cfg.dt, s, j + 1) == OdeStates(ode, cfg.dt, s1, j);
      assert OdeStates(ode, cfg.dt, s, 1) == s1;
      AdaptiveStopsAfterFailure(cfg, ode, s1, ti + 1, j - 1);
    } else {
      assert OdeStates(ode, cfg.dt, s, 1) == s1;
    }
  }

  /** The exact current iteration k adds when it begins in state b: that of
      the sampled solution `y[:-1]` at the E and A of step k (recorded by the
      iteration itself on the first local path, the stored ones otherwise). */
  ghost function ExactCurrentAt<S(!new)>(cfg: Config, ph: Physics, ode: Ode<S>, b: StepState<S>,
                                         storedE: real, storedA: real, idx: nat, isFirst: bool, k: nat): (real, real)
    requires HasFieldSlot(cfg, ode, b.d, b.s)
  {
    var y := CurrentY(cfg, ode, b.d, b.s);
    var e := if isFirst then ph.electricField(SampleTime(cfg, ode, b.s, k)) else storedE;
    var a := if isFirst then y[|y| - 1].re else storedA;
    ph.currentExact(idx, SolutionOf(y), e, a)
  }

  /** An iteration adds the exact current of the sampled solution `y[:-1]`,
      evaluated at the E and A of step ti (recorded by this same iteration on
      the first local path, read from T otherwise). */
  lemma StepAddsExactCurrent<S(!new)>(cfg: Config, ph: Physics, ode: Ode<S>, d: TimeData, s: S,
                                      idx: nat, ti: nat, isFirst: bool)
    requires WellFormed(cfg, ph, ode) && Shape(cfg, d) && HasFieldSlot(cfg, ode, d, s) && ti < cfg.nt
    ensures var r := Step(cfg, ph, ode, d, s, idx, ti, isFirst).d;
            var j := ExactCurrentAt(cfg, ph, ode, StepState(d, s, true), d.eField[ti], d.aField[ti], idx, isFirst, ti);
            r.jEDir[ti] == d.jEDir[ti] + j.0 && r.jOrtho[ti] == d.jOrtho[ti] + j.1
  {
  }

  /** The loop takes at most the Nt - ti remaining steps. */
  lemma {:induction false} StepsBound<S(!new)>(cfg: Config, ode: Ode<S>, s: S, ti: nat, ok: bool)
    ensures Steps(cfg, ode, s, ti, ok) == 0 || ti + Steps(cfg, ode, s, ti, ok) <= cfg.nt
    decreases cfg.nt - ti
  {
    if ok && ti < cfg.nt && Adaptive(cfg) {
      var s1 := ode.integrate(s, ode.time(s) + cfg.dt);
      StepsBound(cfg, ode, s1, ti + 1, ode.successful(s1));
    }
  }

  /** An iteration of the first local path records its sample time and the
      field at that time in entry ti. */
  lemma StepRecordsTime<S(!new)>(cfg: Config, ph: Physics, ode: Ode<S>, d: TimeData, s: S, idx: nat, ti: nat)
    requires WellFormed(cfg, ph, ode) && Shape(cfg, d) && HasFieldSlot(cfg, ode, d, s) && ti < cfg.nt
    ensures var r := Step(cfg, ph, ode, d, s, idx, ti, true).d;
            r.t[ti] == SampleTime(cfg, ode, s, ti) && r.eField[ti] == ph.electricField(r.t[ti])
  {
  }

  /** The loop from step ti continues, after one iteration, as the loop from ti + 1. */
  lemma RunPathHead<S(!new)>(cfg: Config, ph: Physics, ode: Ode<S>, d: TimeData, s: S,
                             idx: nat, isFirst: bool, ti: nat)
    returns (d1: TimeData, s1: S, ok1: bool)
    requires WellFormed(cfg, ph, ode) && Shape(cfg, d) && HasFieldSlot(cfg, ode, d, s) && ti < cfg.nt
    ensures Shape(cfg, d1) && HasFieldSlot(cfg, ode, d1, s1)
    ensures RunPath(cfg, ph, ode, d, s, idx, isFirst, ti, true) == RunPath(cfg, ph, ode, d1, s1, idx, isFirst, ti + 1, ok1)
    ensures !Adaptive(cfg) ==> ok1 && s1 == s
    ensures Adaptive(cfg) ==> s1 == ode.integrate(s, ode.time(s) + cfg.dt) && ok1 == ode.successful(s1)
  {
    var n := Step(cfg, ph, ode, d, s, idx, ti, isFirst);
    d1, s1, ok1 := n.d, n.s, n.ok;
  }

  /** The first sample of a loop on the first local path survives the rest of the loop. */
  lemma FirstSampleRecordsTime<S(!new)>(
    cfg: Config, ph: Physics, ode: Ode<S>, d: TimeData, s: S, idx: nat, ti: nat)
    requires WellFormed(cfg, ph, ode) && Shape(cfg, d) && HasFieldSlot(cfg, ode, d, s) && ti < cfg.nt
    ensures var r := RunPath(cfg, ph, ode, d, s, idx, true, ti, true).d;
            r.t[ti] == SampleTime(cfg, ode, s, ti) && r.eField[ti] == ph.electricField(r.t[ti])
  {
    var n := Step(cfg, ph, ode, d, s, idx, ti, true);
    StepRecordsTime(cfg, ph, ode, d, s, idx, ti);
    RunPathTouchesOnlyItsSteps(cfg, ph, ode, n.d, n.s, idx, true, ti + 1, n.ok, ti);
  }

  /** The first local path records, for every step k it takes, the time of the
      integrator after k - ti steps (k dt + t0 for rk4) and the field at that
      time. */
  lemma {:induction false} FirstPathRecordsTimeAxis<S(!new)>(
    cfg: Config, ph: Physics, ode: Ode<S>, d: TimeData, s: S, idx: nat, ti: nat, ok: bool, k: nat)
    requires WellFormed(cfg, ph, ode) && Shape(cfg, d) && HasFieldSlot(cfg, ode, d, s)
    requires ti <= k < ti + Steps(cfg, ode, s, ti, ok)
    ensures k < cfg.nt
    ensures var r := RunPath(cfg, ph, ode, d, s, idx, true, ti, ok).d;
            var tk := SampleTime(cfg, ode, OdeStates(ode, cfg.dt, s, k - ti), k);
            r.t[k] == tk && r.eField[k] == ph.electricField(tk)
    decreases cfg.nt - ti, 1
  {
    StepsBound(cfg, ode, s, ti, ok);
    if ti == k {
      FirstSampleRecordsTime(cfg, ph, ode, d, s, idx, ti);
    } else {
      FirstPathRecordsLater(cfg, ph, ode, d, s, idx, ti, k);
    }
  }

  lemma {:induction false} FirstPathRecordsLater<S(!new)>(
    cfg: Config, ph: Physics, ode: Ode<S>, d: TimeData, s: S, idx: nat, ti: nat, k: nat)
    requires WellFormed(cfg, ph, ode) && Shape(cfg, d) && HasFieldSlot(cfg, ode, d, s)
    requires ti < k < ti + Steps(cfg, ode, s, ti, true) && ti < cfg.nt
    ensures k < cfg.nt
    ensures var r := RunPath(cfg, ph, ode, d, s, idx, true, ti, true).d;
            var tk := SampleTime(cfg, ode, OdeStates(ode, cfg.dt, s, k - ti), k);
            r.t[k] == tk && r.eField[k] == ph.electricField(tk)
    decreases cfg.nt - ti, 0
  {
    var d1, s1, ok1 := RunPathHead(cfg, ph, ode, d, s, idx, true, ti);
    SampleTimeAfterStep(cfg, ode, s, ti, k);
    FirstPathRecordsTimeAxis(cfg, ph, ode, d1, s1, idx, ti + 1, ok1, k);
  }

  /** The count and the sample times seen from step ti + 1 are those seen from ti, shifted by one. */
  lemma SampleTimeAfterStep<S(!new)>(cfg: Config, ode: Ode<S>, s: S, ti: nat, k: nat)
    requires ti < k && ti < cfg.nt
    ensures var s1 := if Adaptive(cfg) then ode.integrate(s, ode.time(s) + cfg.dt) else s;
            var ok1 := !Adaptive(cfg) || ode.successful(s1);
            && Steps(cfg, ode, s, ti, true) == 1 + Steps(cfg, ode, s1, ti + 1, ok1)
            && SampleTime(cfg, ode, OdeStates(ode, cfg.dt, s, k - ti), k)
               == SampleTime(cfg, ode, OdeStates(ode, cfg.dt, s1, k - (ti + 1)), k)
  {
  }

  /** An iteration of a later path leaves the time axis and the fields alone. */
  lemma StepKeepsTimeAxis<S(!new)>(cfg: Config, ph: Physics, ode: Ode<S>, d: TimeData, s: S, idx: nat, ti: nat)
    requires WellFormed(cfg, ph, ode) && Shape(cfg, d) && HasFieldSlot(cfg, ode, d, s) && ti < cfg.nt
    ensures var r := Step(cfg, ph, ode, d, s, idx, ti, false).d;
            r.t == d.t && r.aField == d.aField && r.eField == d.eField
  {
    var d1 := Report(cfg, d, idx, ti);
    var d2 := Sample(cfg, ph, ode, d1, s, idx, ti, false);
    assert d2.t == d.t && d2.aField == d.aField && d2.eField == d.eField;
    var d3 := Accumulate(cfg, ph, d2, idx, ti);
    assert d3.t == d.t && d3.aField == d.aField && d3.eField == d.eField;
  }

  /** Without save_full an iteration leaves the full solution store alone. */
  lemma StepKeepsSolutionFull<S(!new)>(cfg: Config, ph: Physics, ode: Ode<S>, d: TimeData, s: S,
                                       idx: nat, ti: nat, isFirst: bool)
    requires WellFormed(cfg, ph, ode) && Shape(cfg, d) && HasFieldSlot(cfg, ode, d, s) && ti < cfg.nt
    requires !cfg.saveFull
    ensures Step(cfg, ph, ode, d, s, idx, ti, isFirst).d.solutionFull == d.solutionFull
  {
    var d1 := Report(cfg, d, idx, ti);
    var d2 := Sample(cfg, ph, ode, d1, s, idx, ti, isFirst);
    assert d2.solutionFull == d.solutionFull;
    var d3 := Accumulate(cfg, ph, d2, idx, ti);
    assert d3.solutionFull == d.solutionFull;
  }

  /** Only the first local path writes the time axis and the two fields. */
  lemma {:induction false} LaterPathsKeepTimeAxis<S(!new)>(
    cfg: Config, ph: Physics, ode: Ode<S>, d: TimeData, s: S, idx: nat, ti: nat, ok: bool)
    requires WellFormed(cfg, ph, ode) && Shape(cfg, d) && HasFieldSlot(cfg, ode, d, s)
    ensures var r := RunPath(cfg, ph, ode, d, s, idx, false, ti, ok).d;
            r.t == d.t && r.aField == d.aField && r.eField == d.eField
    decreases cfg.nt - ti
  {
    if ok && ti < cfg.nt {
      var n := Step(cfg, ph, ode, d, s, idx, ti, false);
      StepKeepsTimeAxis(cfg, ph, ode, d, s, idx, ti);
      LaterPathsKeepTimeAxis(cfg, ph, ode, n.d, n.s, idx, ti + 1, n.ok);
    }
  }

  /** Without save_full the full solution store is never written. */
  lemma {:induction false} FullSolutionOnlyWhenAsked<S(!new)>(
    cfg: Config, ph: Physics, ode: Ode<S>, d: TimeData, s: S, idx: nat, isFirst: bool, ti: nat, ok: bool)
    requires WellFormed(cfg, ph, ode) && Shape(cfg, d) && HasFieldSlot(cfg, ode, d, s)
    requires !cfg.saveFull
    ensures RunPath(cfg, ph, ode, d, s, idx, isFirst, ti, ok).d.solutionFull == d.solutionFull
    decreases cfg.nt - ti
  {
    if ok && ti < cfg.nt {
      var n := Step(cfg, ph, ode, d, s, idx, ti, isFirst);
      StepKeepsSolutionFull(cfg, ph, ode, d, s, idx, ti, isFirst);
      FullSolutionOnlyWhenAsked(cfg, ph, ode, n.d, n.s, idx, isFirst, ti + 1, n.ok);
    }
  }

  /** The loop from step ti stopped before step `stop`: the state in which
      iteration `stop` begins. */
  function RunPathTo<S(!new)>(cfg: Config, ph: Physics, ode: Ode<S>, d: TimeData, s: S,
                              idx: nat, isFirst: bool, ti: nat, ok: bool, stop: nat): (r: StepState<S>)
    requires WellFormed(cfg, ph, ode) && Shape(cfg, d) && HasFieldSlot(cfg, ode, d, s) && stop <= cfg.nt
    ensures Shape(cfg, r.d) && HasFieldSlot(cfg, ode, r.d, r.s)
    decreases stop - ti
  {
    if ok && ti < stop then
      var n := Step(cfg, ph, ode, d, s, idx, ti, isFirst);
      RunPathTo(cfg, ph, ode, n.d, n.s, idx, isFirst, ti + 1, n.ok, stop)
    else StepState(d, s, ok)
  }

  /** One iteration unrolled in both the whole loop and the loop up to `stop`. */
  lemma RunPathToHead<S(!new)>(cfg: Config, ph: Physics, ode: Ode<S>, d: TimeData, s: S,
                               idx: nat, isFirst: bool, ti: nat, stop: nat) returns (n: StepState<S>)
    requires WellFormed(cfg, ph, ode) && Shape(cfg, d) && HasFieldSlot(cfg, ode, d, s)
    requires ti < stop <= cfg.nt
    ensures n == Step(cfg, ph, ode, d, s, idx, ti, isFirst)
    ensures Shape(cfg, n.d) && HasFieldSlot(cfg, ode, n.d, n.s)
    ensures RunPathTo(cfg, ph, ode, d, s, idx, isFirst, ti, true, stop)
         == RunPathTo(cfg, ph, ode, n.d, n.s, idx, isFirst, ti + 1, n.ok, stop)
    ensures RunPath(cfg, ph, ode, d, s, idx, isFirst, ti, true)
         == RunPath(cfg, ph, ode, n.d, n.s, idx, isFirst, ti + 1, n.ok)
  {
    n := Step(cfg, ph, ode, d, s, idx, ti, isFirst);
  }

  /** Each step k the loop takes adds into entry k of `j_E_dir` and `j_ortho`,
      once, the exact current of the state b in which iteration k begins,
      at the E and A of step k; nothing else is ever added to entry k. */
  lemma {:induction false} RunPathAddsExactCurrent<S(!new)>(cfg: Config, ph: Physics, ode: Ode<S>, d: TimeData, s: S,
                                         idx: nat, isFirst: bool, ti: nat, ok: bool, k: nat)
    requires WellFormed(cfg, ph, ode) && Shape(cfg, d) && HasFieldSlot(cfg, ode, d, s)
    requires ti <= k < ti + Steps(cfg, ode, s, ti, ok)
    ensures k < cfg.nt
    ensures var b := RunPathTo(cfg, ph, ode, d, s, idx, isFirst, ti, ok, k);
            var r := RunPath(cfg, ph, ode, d, s, idx, isFirst, ti, ok).d;
            var j := ExactCurrentAt(cfg, ph, ode, b, d.eField[k], d.aField[k], idx, isFirst, k);
            r.jEDir[k] == d.jEDir[k] + j.0 && r.jOrtho[k] == d.jOrtho[k] + j.1
    decreases k - ti, 1
  {
    StepsBound(cfg, ode, s, ti, ok);
    if ti == k {
      FirstStepAddsExactCurrent(cfg, ph, ode, d, s, idx, isFirst, ti);
    } else {
      LaterStepAddsExactCurrent(cfg, ph, ode, d, s, idx, isFirst, ti, k);
    }
  }

  lemma FirstStepAddsExactCurrent<S(!new)>(cfg: Config, ph: Physics, ode: Ode<S>, d: TimeData, s: S,
                                           idx: nat, isFirst: bool, ti: nat)
    requires WellFormed(cfg, ph, ode) && Shape(cfg, d) && HasFieldSlot(cfg, ode, d, s) && ti < cfg.nt
    ensures var r := RunPath(cfg, ph, ode, d, s, idx, isFirst, ti, true).d;
            var j := ExactCurrentAt(cfg, ph, ode, StepState(d, s, true), d.eField[ti], d.aField[ti], idx, isFirst, ti);
            r.jEDir[ti] == d.jEDir[ti] + j.0 && r.jOrtho[ti] == d.jOrtho[ti] + j.1
  {
    var n := Step(cfg, ph, ode, d, s, idx, ti, isFirst);
    StepAddsExactCurrent(cfg, ph, ode, d, s, idx, ti, isFirst);
    RunPathTouchesOnlyItsSteps(cfg, ph, ode, n.d, n.s, idx, isFirst, ti + 1, n.ok, ti);
  }

  lemma {:induction false} LaterStepAddsExactCurrent<S(!new)>(cfg: Config, ph: Physics, ode: Ode<S>, d: TimeData, s: S,
                                                             idx: nat, isFirst: bool, ti: nat, k: nat)
    requires WellFormed(cfg, ph, ode) && Shape(cfg, d) && HasFieldSlot(cfg, ode, d, s)
    requires ti < k < ti + Steps(cfg, ode, s, ti, true) && k < cfg.nt
    ensures var b := RunPathTo(cfg, ph, ode, d, s, idx, isFirst, ti, true, k);
            var r := RunPath(cfg, ph, ode, d, s, idx, isFirst, ti, true).d;
            var j := ExactCurrentAt(cfg, ph, ode, b, d.eField[k], d.aField[k], idx, isFirst, k);
            r.jEDir[k] == d.jEDir[k] + j.0 && r.jOrtho[k] == d.jOrtho[k] + j.1
    decreases k - ti, 0
  {
    var n := LaterStepHead(cfg, ph, ode, d, s, idx, isFirst, ti, k);
    RunPathAddsExactCurrent(cfg, ph, ode, n.d, n.s, idx, isFirst, ti + 1, n.ok, k);
  }

  /** A step before step k leaves entry k alone and one sample fewer to go. */
  lemma LaterStepHead<S(!new)>(cfg: Config, ph: Physics, ode: Ode<S>, d: TimeData, s: S,
                               idx: nat, isFirst: bool, ti: nat, k: nat) returns (n: StepState<S>)
    requires WellFormed(cfg, ph, ode) && Shape(cfg, d) && HasFieldSlot(cfg, ode, d, s)
    requires ti < k < ti + Steps(cfg, ode, s, ti, true) && k < cfg.nt
    ensures Shape(cfg, n.d) && HasFieldSlot(cfg, ode, n.d, n.s)
    ensures k < ti + 1 + Steps(cfg, ode, n.s, ti + 1, n.ok)
    ensures n.d.eField[k] == d.eField[k] && n.d.aField[k] == d.aField[k]
    ensures n.d.jEDir[k] == d.jEDir[k] && n.d.jOrtho[k] == d.jOrtho[k]
    ensures RunPathTo(cfg, ph, ode, d, s, idx, isFirst, ti, true, k)
         == RunPathTo(cfg, ph, ode, n.d, n.s, idx, isFirst, ti + 1, n.ok, k)
    ensures RunPath(cfg, ph, ode, d, s, idx, isFirst, ti, true)
         == RunPath(cfg, ph, ode, n.d, n.s, idx, isFirst, ti + 1, n.ok)
  {
    n := RunPathToHead(cfg, ph, ode, d, s, idx, isFirst, ti, k);
    SampleTimeAfterStep(cfg, ode, s, ti, k);
    StepTouchesOnlyItsIndex(cfg, ph, ode, d, s, idx, ti, isFirst, k);
  }

  /** With rk4 a whole path adds into every one of the Nt entries of
      `j_E_dir` and `j_ortho` exactly once: at entry k the exact current of
      the state after k steps, at E(k dt + t0) and its own A slot on the
      first local path, at the recorded E and A otherwise. */
  lemma PathEndAddsExactCurrent<S(!new)>(cfg: Config, ph: Physics, ode: Ode<S>, d: TimeData, s: S,
                                         idx: nat, firstIdx: nat, k: nat)
    requires WellFormed(cfg, ph, ode) && Shape(cfg, d) && !Adaptive(cfg) && k < cfg.nt
    ensures var st := StartPath(cfg, ph, ode, d, s, idx);
            var b := RunPathTo(cfg, ph, ode, st.d, st.s, idx, firstIdx == idx, 0, true, k);
            var j := ExactCurrentAt(cfg, ph, ode, b, d.eField[k], d.aField[k], idx, firstIdx == idx, k);
            var r := PathEnd(cfg, ph, ode, d, s, idx, firstIdx).d;
            r.jEDir[k] == d.jEDir[k] + j.0 && r.jOrtho[k] == d.jOrtho[k] + j.1
  {
    var st := StartPathKeepsArrays(cfg, ph, ode, d, s, idx, firstIdx);
    RunPathAddsExactCurrent(cfg, ph, ode, st.d, st.s, idx, firstIdx == idx, 0, true, k);
  }

  /** The start of a path with rk4 writes only `T.solution_y_vec`; the loop takes all Nt steps. */
  lemma StartPathKeepsArrays<S(!new)>(cfg: Config, ph: Physics, ode: Ode<S>, d: TimeData, s: S,
                                      idx: nat, firstIdx: nat) returns (st: StepState<S>)
    requires WellFormed(cfg, ph, ode) && Shape(cfg, d) && !Adaptive(cfg)
    ensures st == StartPath(cfg, ph, ode, d, s, idx)
    ensures Shape(cfg, st.d) && HasFieldSlot(cfg, ode, st.d, st.s) && st.ok
    ensures st.d.eField == d.eField && st.d.aField == d.aField
    ensures st.d.jEDir == d.jEDir && st.d.jOrtho == d.jOrtho
    ensures Steps(cfg, ode, st.s, 0, true) == cfg.nt
    ensures PathEnd(cfg, ph, ode, d, s, idx, firstIdx) == RunPath(cfg, ph, ode, st.d, st.s, idx, firstIdx == idx, 0, true)
  {
    st := StartPath(cfg, ph, ode, d, s, idx);
  }

  // ---------------------------------------------------------------------
  // The time loop as written

  /** The integration step with `rk_integrate` as written (its stage states
      lack dt); the adaptive step is the same. */
  function AdvanceAsWritten<S(!new)>(cfg: Config, ph: Physics, ode: Ode<S>, d: TimeData, s: S,
                                     idx: nat, ti: nat): (r: StepState<S>)
    requires WellFormed(cfg, ph, ode) && Shape(cfg, d) && HasFieldSlot(cfg, ode, d, s) && ti < cfg.nt
    ensures Shape(cfg, r.d) && HasFieldSlot(cfg, ode, r.d, r.s)
    ensures !Adaptive(cfg) ==> r.ok && r.s == s
    ensures Adaptive(cfg) ==> r.d == d
  {
    if Adaptive(cfg) then Advance(cfg, ph, ode, d, s, idx, ti)
    else
      var y := RungeKutta.RkIntegrateAsWritten(ph.rhsFor(idx), d.t[ti], d.solutionYVec, cfg.dt);
      StepState(d.(solutionYVec := y), s, true)
  }

  /** One pass of the loop body of cued/main.py:196-216 as written: the guard
      `ti % (Nt//20) == 0 and user_out` is evaluated first and raises for
      Nt < 20; then come the sample, the currents and the step as written. */
  function StepAsWritten<S(!new)>(cfg: Config, ph: Physics, ode: Ode<S>, d: TimeData, s: S,
                                  idx: nat, ti: nat, isFirst: bool): (r: Result<StepState<S>, Fault>)
    requires WellFormed(cfg, ph, ode) && Shape(cfg, d) && HasFieldSlot(cfg, ode, d, s) && ti < cfg.nt
    ensures r.Err? <==> cfg.nt / 20 == 0
    ensures r.Ok? ==> Shape(cfg, r.value.d) && HasFieldSlot(cfg, ode, r.value.d, r.value.s)
  {
    match ProgressDueAsWritten(ti, cfg.nt, cfg.userOut)
    case Err(f) => Err(f)
    case Ok(due) =>
      var d1 := if due then d.(progress := d.progress + [(idx, ti)]) else d;
      var d2 := Sample(cfg, ph, ode, d1, s, idx, ti, isFirst);
      var d3 := Accumulate(cfg, ph, d2, idx, ti);
      Ok(AdvanceAsWritten(cfg, ph, ode, d3, s, idx, ti))
  }

  /** The loop of one path as written; the first exception ends the run. */
  function RunPathAsWritten<S(!new)>(cfg: Config, ph: Physics, ode: Ode<S>, d: TimeData, s: S,
                                     idx: nat, isFirst: bool, ti: nat, ok: bool): (r: Result<StepState<S>, Fault>)
    requires WellFormed(cfg, ph, ode) && Shape(cfg, d) && HasFieldSlot(cfg, ode, d, s)
    ensures r.Ok? ==> Shape(cfg, r.value.d) && HasFieldSlot(cfg, ode, r.value.d, r.value.s)
    decreases cfg.nt - ti
  {
    if ok && ti < cfg.nt then
      match StepAsWritten(cfg, ph, ode, d, s, idx, ti, isFirst)
      case Err(f) => Err(f)
      case Ok(n) => RunPathAsWritten(cfg, ph, ode, n.d, n.s, idx, isFirst, ti + 1, n.ok)
    else Ok(StepState(d, s, ok))
  }

  /** With Nt < 20 the loop as written raises ZeroDivisionError exactly when
      it takes a step at all. */
  lemma RunPathAsWrittenAborts<S(!new)>(cfg: Config, ph: Physics, ode: Ode<S>, d: TimeData, s: S,
                                        idx: nat, isFirst: bool, ti: nat, ok: bool)
    requires WellFormed(cfg, ph, ode) && Shape(cfg, d) && HasFieldSlot(cfg, ode, d, s) && cfg.nt < 20
    ensures RunPathAsWritten(cfg, ph, ode, d, s, idx, isFirst, ti, ok) == Err(ZeroDivision) <==> ok && ti < cfg.nt
    ensures RunPathAsWritten(cfg, ph, ode, d, s, idx, isFirst, ti, ok).Ok? ==>
              RunPathAsWritten(cfg, ph, ode, d, s, idx, isFirst, ti, ok) == Ok(StepState(d, s, ok))
  {
  }

  /** From Nt = 20 on, a pass as written is the corrected pass whenever the
      step is adaptive or dt == 1. */
  lemma StepAsWrittenAgrees<S(!new)>(cfg: Config, ph: Physics, ode: Ode<S>, d: TimeData, s: S,
                                     idx: nat, ti: nat, isFirst: bool)
    requires WellFormed(cfg, ph, ode) && Shape(cfg, d) && HasFieldSlot(cfg, ode, d, s) && ti < cfg.nt
    requires cfg.nt >= 20 && (Adaptive(cfg) || cfg.dt == 1.0)
    ensures StepAsWritten(cfg, ph, ode, d, s, idx, ti, isFirst) == Ok(Step(cfg, ph, ode, d, s, idx, ti, isFirst))
  {
    ProgressDueAgrees(ti, cfg.nt, cfg.userOut);
    var d1 := Report(cfg, d, idx, ti);
    var d3 := Accumulate(cfg, ph, Sample(cfg, ph, ode, d1, s, idx, ti, isFirst), idx, ti);
    if !Adaptive(cfg) {
      RungeKutta.AsWrittenAgreesAtUnitStep(ph.rhsFor(idx), d3.t[ti], d3.solutionYVec);
    }
  }

  /** From Nt = 20 on, the loop as written is the corrected loop whenever the
      step is adaptive or dt == 1. */
  lemma {:induction false} RunPathAsWrittenAgrees<S(!new)>(cfg: Config, ph: Physics, ode: Ode<S>, d: TimeData, s: S,
                                                          idx: nat, isFirst: bool, ti: nat, ok: bool)
    requires WellFormed(cfg, ph, ode) && Shape(cfg, d) && HasFieldSlot(cfg, ode, d, s)
    requires cfg.nt >= 20 && (Adaptive(cfg) || cfg.dt == 1.0)
    ensures RunPathAsWritten(cfg, ph, ode, d, s, idx, isFirst, ti, ok) == Ok(RunPath(cfg, ph, ode, d, s, idx, isFirst, ti, ok))
    decreases cfg.nt - ti
  {
    if ok && ti < cfg.nt {
      StepAsWrittenAgrees(cfg, ph, ode, d, s, idx, ti, isFirst);
      var n := Step(cfg, ph, ode, d, s, idx, ti, isFirst);
      RunPathAsWrittenAgrees(cfg, ph, ode, n.d, n.s, idx, isFirst, ti + 1, n.ok);
    }
  }

  // ---------------------------------------------------------------------
  // The container T and the driver

  /** The time container T: numpy arrays as sequences that the loop updates
      entry by entry. */
  class TimeContainers {
    var t: seq<real>
    var aField: seq<real>
    var eField: seq<real>
    var jEDir: seq<real>
    var jOrtho: seq<real>
    var pEDir: seq<real>
    var pOrtho: seq<real>
    var jIntraEDir: seq<real>
    var jIntraOrtho: seq<real>
    var jAnomOrtho: seq<seq<real>>
    var solution: Vec
    var solutionYVec: Vec
    var solutionFull: map<(nat, nat), Vec>
    var progress: seq<(nat, nat)>

    function Snapshot(): TimeData
      reads this
    {
      TimeData(t, aField, eField, jEDir, jOrtho, pEDir, pOrtho, jIntraEDir, jIntraOrtho,
               jAnomOrtho, solution, solutionYVec, solutionFull, progress)
    }

    /** Zeroed arrays of Nt entries (n columns for `j_anom_ortho`). */
    constructor (cfg: Config)
      ensures Shape(cfg, Snapshot())
      ensures forall k :: 0 <= k < cfg.nt ==> jEDir[k] == 0.0 && jOrtho[k] == 0.0
      ensures solutionFull == map[] && progress == []
    {
      var z := seq(cfg.nt, k => 0.0);
      t, aField, eField := z, z, z;
      jEDir, jOrtho, pEDir, pOrtho, jIntraEDir, jIntraOrtho := z, z, z, z, z, z;
      jAnomOrtho := seq(cfg.nt, k => seq(cfg.nBands, b => 0.0));
      solution, solutionYVec := [], [];
      solutionFull, progress := map[], [];
    }
  }

  /** `calculate_solution_at_timestep` (cued/main.py:334-358). */
  method CalculateSolutionAtTimestep<S(!new)>(cfg: Config, ph: Physics, ode: Ode<S>, solver: S,
                                              idx: nat, ti: nat, firstIdx: nat, c: TimeContainers)
    requires Shape(cfg, c.Snapshot()) && HasFieldSlot(cfg, ode, c.Snapshot(), solver) && ti < cfg.nt
    modifies c
    ensures c.Snapshot() == Sample(cfg, ph, ode, old(c.Snapshot()), solver, idx, ti, firstIdx == idx)
  {
    var isFirst := firstIdx == idx;
    var y := if Adaptive(cfg) then ode.y(solver) else c.solutionYVec;
    c.solution := y[..|y| - 1];
    if isFirst {
      RecordFirstSample(cfg, ph, ode, solver, ti, y, c);
    }
    if cfg.saveFull {
      c.solutionFull := c.solutionFull[(idx, ti) := c.solution];
    }
  }

  /** cued/main.py:343-346 and 353-356: on the first local path, the sample
      time (`solver.t`, or `ti*dt + t0` for rk4), the A-field slot of the state
      and the E-field at that time go into entry ti. */
  method RecordFirstSample<S(!new)>(cfg: Config, ph: Physics, ode: Ode<S>, solver: S, ti: nat, y: Vec,
                                    c: TimeContainers)
    requires ti < |c.t| && ti < |c.aField| && ti < |c.eField| && |y| >= 1
    modifies c
    ensures c.Snapshot() == RecordFields(ph, old(c.Snapshot()), ti, SampleTime(cfg, ode, solver, ti), y[|y| - 1].re)
  {
    ghost var tt := SampleTime(cfg, ode, solver, ti);
    if Adaptive(cfg) {
      assert tt == ode.time(solver);
      c.t := c.t[ti := ode.time(solver)];
      assert c.t == old(c.t)[ti := tt];
    } else {
      assert tt == ti as real * cfg.dt + cfg.t0;
      c.t := c.t[ti := ti as real * cfg.dt + cfg.t0];
      assert c.t == old(c.t)[ti := tt];
    }
    c.aField := c.aField[ti := y[|y| - 1].re];
    c.eField := c.eField[ti := ph.electricField(c.t[ti])];
  }

  /** `calculate_currents` (cued/main.py:377-392). */
  method CalculateCurrents(cfg: Config, ph: Physics, idx: nat, ti: nat, c: TimeContainers)
    requires Shape(cfg, c.Snapshot()) && ti < cfg.nt
    requires forall idx, y, e, a :: |ph.currentIntra(idx, y, e, a).2| == cfg.nBands
    modifies c
    ensures c.Snapshot() == Accumulate(cfg, ph, old(c.Snapshot()), idx, ti)
  {
    AddExactCurrent(ph, idx, ti, c);
    if cfg.splitCurrent {
      AddSplitCurrents(cfg, ph, idx, ti, c);
    }
  }

  /** cued/main.py:379-382: the exact current into `j_E_dir` and `j_ortho`. */
  method AddExactCurrent(ph: Physics, idx: nat, ti: nat, c: TimeContainers)
    requires ti < |c.jEDir| && ti < |c.jOrtho| && ti < |c.eField| && ti < |c.aField|
    modifies c
    ensures var d := old(c.Snapshot());
            var exact := ph.currentExact(idx, d.solution, d.eField[ti], d.aField[ti]);
            c.Snapshot() == d.(jEDir := d.jEDir[ti := d.jEDir[ti] + exact.0],
                               jOrtho := d.jOrtho[ti := d.jOrtho[ti] + exact.1])
  {
    var exact := ph.currentExact(idx, c.solution, c.eField[ti], c.aField[ti]);
    c.jEDir := c.jEDir[ti := c.jEDir[ti] + exact.0];
    c.jOrtho := c.jOrtho[ti := c.jOrtho[ti] + exact.1];
  }

  /** cued/main.py:384-392: the split currents into their five arrays. */
  method AddSplitCurrents(cfg: Config, ph: Physics, idx: nat, ti: nat, c: TimeContainers)
    requires Shape(cfg, c.Snapshot()) && ti < cfg.nt
    requires forall idx, y, e, a :: |ph.currentIntra(idx, y, e, a).2| == cfg.nBands
    modifies c
    ensures var d := old(c.Snapshot());
            var e, a := d.eField[ti], d.aField[ti];
            var pol := ph.polarizationInter(idx, d.solution, e, a);
            var intra := ph.currentIntra(idx, d.solution, e, a);
            c.Snapshot() == d.(pEDir := d.pEDir[ti := d.pEDir[ti] + pol.0],
                               pOrtho := d.pOrtho[ti := d.pOrtho[ti] + pol.1],
                               jIntraEDir := d.jIntraEDir[ti := d.jIntraEDir[ti] + intra.0],
                               jIntraOrtho := d.jIntraOrtho[ti := d.jIntraOrtho[ti] + intra.1],
                               jAnomOrtho := d.jAnomOrtho[ti := RowAdd(d.jAnomOrtho[ti], intra.2)])
  {
    var e, a := c.eField[ti], c.aField[ti];
    var pol := ph.polarizationInter(idx, c.solution, e, a);
    var intra := ph.currentIntra(idx, c.solution, e, a);
    var row := RowAdd(c.jAnomOrtho[ti], intra.2);
    c.pEDir, c.pOrtho := c.pEDir[ti := c.pEDir[ti] + pol.0], c.pOrtho[ti := c.pOrtho[ti] + pol.1];
    c.jIntraEDir, c.jIntraOrtho, c.jAnomOrtho :=
      c.jIntraEDir[ti := c.jIntraEDir[ti] + intra.0], c.jIntraOrtho[ti := c.jIntraOrtho[ti] + intra.1],
      c.jAnomOrtho[ti := row];
  }

  /** One pass of the time loop body (cued/main.py:196-216). */
  method TimeStep<S(!new)>(cfg: Config, ph: Physics, ode: Ode<S>, solver0: S,
                           idx: nat, ti: nat, firstIdx: nat, c: TimeContainers)
    returns (solver: S, successful: bool)
    requires WellFormed(cfg, ph, ode) && Shape(cfg, c.Snapshot())
    requires HasFieldSlot(cfg, ode, c.Snapshot(), solver0) && ti < cfg.nt
    modifies c
    ensures StepState(c.Snapshot(), solver, successful)
         == Step(cfg, ph, ode, old(c.Snapshot()), solver0, idx, ti, firstIdx == idx)
  {
    solver := solver0;
    if ProgressDue(ti, cfg.nt, cfg.userOut) {
      c.progress := c.progress + [(idx, ti)];
    }
    assert c.Snapshot() == Report(cfg, old(c.Snapshot()), idx, ti);
    CalculateSolutionAtTimestep(cfg, ph, ode, solver, idx, ti, firstIdx, c);
    CalculateCurrents(cfg, ph, idx, ti, c);
    ghost var next := Advance(cfg, ph, ode, c.Snapshot(), solver, idx, ti);
    if Adaptive(cfg) {
      solver := ode.integrate(solver, ode.time(solver) + cfg.dt);
      successful := ode.successful(solver);
    } else {
      c.solutionYVec := RungeKutta.RkIntegrate(ph.rhsFor(idx), c.t[ti], c.solutionYVec, cfg.dt);
      successful := true;
    }
    assert StepState(c.Snapshot(), solver, successful) == next;
  }

  /** The time loop of one path (cued/main.py:192-216), started from the
      state `StartPath` leaves. */
  method SolvePath<S(!new)>(cfg: Config, ph: Physics, ode: Ode<S>, solver0: S,
                            idx: nat, firstIdx: nat, c: TimeContainers) returns (solver: S)
    requires WellFormed(cfg, ph, ode) && Shape(cfg, c.Snapshot()) && HasFieldSlot(cfg, ode, c.Snapshot(), solver0)
    modifies c
    ensures RunPath(cfg, ph, ode, old(c.Snapshot()), solver0, idx, firstIdx == idx, 0, true).d == c.Snapshot()
    ensures RunPath(cfg, ph, ode, old(c.Snapshot()), solver0, idx, firstIdx == idx, 0, true).s == solver
  {
    solver := solver0;
    var ti := 0;
    var successful := true;
    ghost var isFirst := firstIdx == idx;
    ghost var goal := RunPath(cfg, ph, ode, c.Snapshot(), solver0, idx, isFirst, 0, true);
    while successful && ti < cfg.nt
      invariant Shape(cfg, c.Snapshot()) && HasFieldSlot(cfg, ode, c.Snapshot(), solver)
      invariant goal == RunPath(cfg, ph, ode, c.Snapshot(), solver, idx, isFirst, ti, successful)
      decreases cfg.nt - ti
    {
      ghost var d := c.Snapshot();
      ghost var n := Step(cfg, ph, ode, d, solver, idx, ti, isFirst);
      assert RunPath(cfg, ph, ode, d, solver, idx, isFirst, ti, successful)
          == RunPath(cfg, ph, ode, n.d, n.s, idx, isFirst, ti + 1, n.ok);
      solver, successful := TimeStep(cfg, ph, ode, solver, idx, ti, firstIdx, c);
      ti := ti + 1;
    }
  }

  /** The start of a path in `run_sbe` (cued/main.py:181-190). */
  method BeginPath<S(!new)>(cfg: Config, ph: Physics, ode: Ode<S>, solver0: S, idx: nat, c: TimeContainers)
    returns (solver: S)
    requires WellFormed(cfg, ph, ode)
    modifies c
    ensures StepState(c.Snapshot(), solver, true) == StartPath(cfg, ph, ode, old(c.Snapshot()), solver0, idx)
  {
    solver := solver0;
    var y0 := ph.initial(idx) + [Zero];
    if Adaptive(cfg) {
      solver := ode.setInitial(solver, idx, y0, cfg.t0);
    } else {
      c.solutionYVec := y0;
    }
  }

  /** The solving part of `run_sbe` (cued/main.py:166-216): the loop over the
      local paths and, inside it, over the time steps.  `solver` is the
      integrator object made by `make_rhs_ode`; for rk4 it is unused. */
  method RunSbe<S(!new)>(cfg: Config, ph: Physics, ode: Ode<S>, solver0: S,
                         localPaths: seq<nat>, c: TimeContainers) returns (solver: S)
    requires WellFormed(cfg, ph, ode) && Shape(cfg, c.Snapshot())
    modifies c
    ensures var r := RunPaths(cfg, ph, ode, old(c.Snapshot()), solver0, localPaths, |localPaths|);
            c.Snapshot() == r.d && solver == r.s
  {
    solver := solver0;
    ghost var d0 := c.Snapshot();
    for p := 0 to |localPaths|
      invariant Shape(cfg, c.Snapshot())
      invariant c.Snapshot() == RunPaths(cfg, ph, ode, d0, solver0, localPaths, p).d
      invariant solver == RunPaths(cfg, ph, ode, d0, solver0, localPaths, p).s
    {
      solver := PathRun(cfg, ph, ode, solver, localPaths[p], localPaths[0], c);
    }
  }

  /** One path of `run_sbe`: its start and its time loop. */
  method PathRun<S(!new)>(cfg: Config, ph: Physics, ode: Ode<S>, solver0: S,
                          idx: nat, firstIdx: nat, c: TimeContainers) returns (solver: S)
    requires WellFormed(cfg, ph, ode) && Shape(cfg, c.Snapshot())
    modifies c
    ensures var e := PathEnd(cfg, ph, ode, old(c.Snapshot()), solver0, idx, firstIdx);
            c.Snapshot() == e.d && solver == e.s
  {
    solver := BeginPath(cfg, ph, ode, solver0, idx, c);
    solver := SolvePath(cfg, ph, ode, solver, idx, firstIdx, c);
  }

}
