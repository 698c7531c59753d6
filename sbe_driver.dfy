/** The driver of the two-band solver (sbe/solver/solver.py `sbe_solver`,
    lines 152-246 and 286-291): every path of the mesh is integrated from its
    thermal start vector; every output period the state without its A-field
    slot is stored in `solution`, and on the first path the time, A(t) and
    E(t) are recorded; after each path the exact emission of the path is
    added; after all paths the emission is normalised.  The integrator, the
    band energies and the emission observable are passed in. */
module SbeDriver {
  import opened Cplx
  import opened Outcomes
  import Plane
  import Arith
  import TimeStepping
  import TwoBandSolver
  import CuedSetup

  /** The Python exceptions the loop can raise: `reshape(Nk1, 4)` of a state
      of the wrong size, and an index past the `solution` array. */
  datatype SbeError = ReshapeMismatch | IndexOutOfRange

  /** Parameters of the time loop: the Nt integration steps of length dt,
      the output period `dt_out`, the Nt output slots per path, the Nk1
      points of a path, the Nk2 (save_full) or 1 path slots of `solution`,
      and E(t). */
  datatype LoopParams = LoopParams(
    nt: int, dt: real, period: real, ntOut: nat, nk1: nat, nSlots: nat,
    electricField: real -> real)

  /** The written entries of the np.empty containers `solution`, `t`,
      `A_field` and `E_field`; entries never written are absent. */
  datatype Store = Store(
    solution: map<(nat, nat), Vec>, t: map<nat, real>,
    aField: map<nat, real>, eField: map<nat, real>)

  /** The accumulated exact emission along and across E. */
  datatype Emission = Emission(eDir: seq<real>, ortho: seq<real>)

  /** `ti % dt_out == 0` for a non-zero period: ti is an integer multiple of it. */
  predicate Saves(ti: nat, period: real)
    requires period != 0.0
  {
    var q := ti as real / period;
    q.Floor as real == q
  }

  // ---------------------------------------------------------------------
  // The time loop of one path

  /** The save at output index tIdx: the reshape is checked before the
      index, and t, A and E are written only while the time axis has not been
      constructed. */
  function SaveSample(lp: LoopParams, st: Store, y: Vec, time: real, slot: nat, first: bool, tIdx: nat): (r: Result<Store, SbeError>)
    ensures r == Err(ReshapeMismatch) <==> |y| != 4 * lp.nk1 + 1
    ensures r == Err(IndexOutOfRange) <==> |y| == 4 * lp.nk1 + 1 && (slot >= lp.nSlots || tIdx >= lp.ntOut)
    ensures r.Ok? ==> r.value.solution.Keys == st.solution.Keys + {(slot, tIdx)}
    ensures r.Ok? ==> r.value.solution[(slot, tIdx)] == y[..|y| - 1]
    ensures r.Ok? && first ==> && tIdx in r.value.t && r.value.t[tIdx] == time
                               && tIdx in r.value.aField && r.value.aField[tIdx] == y[|y| - 1].re
                               && tIdx in r.value.eField && r.value.eField[tIdx] == lp.electricField(time)
    ensures r.Ok? && !first ==> r.value.t == st.t && r.value.aField == st.aField && r.value.eField == st.eField
  {
    if |y| != 4 * lp.nk1 + 1 then Err(ReshapeMismatch)
    else if slot >= lp.nSlots || tIdx >= lp.ntOut then Err(IndexOutOfRange)
    else
      var st1 := st.(solution := st.solution[(slot, tIdx) := y[..|y| - 1]]);
      if first then
        Ok(st1.(t := st1.t[tIdx := time], aField := st1.aField[tIdx := y[|y| - 1].re],
                eField := st1.eField[tIdx := lp.electricField(time)]))
      else Ok(st1)
  }

  /** `while solver.successful() and ti < Nt` from step ti and output index
      tIdx: each pass integrates one step first and then saves if due.  The
      loop leaves at once, unchanged, when the integrator has failed or Nt is
      reached, and only a pass it enters can raise. */
  function RunLoop<S(!new)>(lp: LoopParams, ode: TimeStepping.Ode<S>, st: Store, s: S,
                            slot: nat, first: bool, ti: nat, tIdx: nat): (r: Result<(Store, S), SbeError>)
    requires lp.period != 0.0
    ensures !(ode.successful(s) && ti < lp.nt) ==> r == Ok((st, s))
    ensures r.Err? ==> ode.successful(s) && ti < lp.nt
    decreases lp.nt - ti
  {
    if !(ode.successful(s) && ti < lp.nt) then Ok((st, s))
    else
      var s1 := ode.integrate(s, ode.time(s) + lp.dt);
      if Saves(ti, lp.period) then
        match SaveSample(lp, st, ode.y(s1), ode.time(s1), slot, first, tIdx)
        case Err(e) => Err(e)
        case Ok(st1) => RunLoop(lp, ode, st1, s1, slot, first, ti + 1, tIdx + 1)
      else RunLoop(lp, ode, st, s1, slot, first, ti + 1, tIdx)
  }

  /** The number of saves among the steps ti .. nt - 1. */
  function SavesIn(period: real, ti: nat, nt: int): nat
    requires period != 0.0
    decreases nt - ti
  {
    if ti >= nt then 0 else (if Saves(ti, period) then 1 else 0) + SavesIn(period, ti + 1, nt)
  }

  /** The integrator keeps the length of the state. */
  ghost predicate KeepsLength<S(!new)>(ode: TimeStepping.Ode<S>)
  {
    forall s, te :: |ode.y(ode.integrate(s, te))| == |ode.y(s)|
  }

  /** The integrator never reports failure. */
  ghost predicate AlwaysSucceeds<S(!new)>(ode: TimeStepping.Ode<S>)
  {
    forall s :: ode.successful(s)
  }

  /** The loop writes `solution` only in its own slot, and keeps every entry
      written before it. */
  lemma {:induction false} LoopStaysInSlot<S(!new)>(lp: LoopParams, ode: TimeStepping.Ode<S>, st: Store, s: S,
                                                    slot: nat, first: bool, ti: nat, tIdx: nat)
    requires lp.period != 0.0
    ensures var r := RunLoop(lp, ode, st, s, slot, first, ti, tIdx);
            r.Ok? ==> && st.solution.Keys <= r.value.0.solution.Keys
                      && forall key :: key in r.value.0.solution && key !in st.solution ==> key.0 == slot && key.1 >= tIdx
    decreases lp.nt - ti
  {
    if ode.successful(s) && ti < lp.nt {
      var s1 := ode.integrate(s, ode.time(s) + lp.dt);
      if Saves(ti, lp.period) {
        var sv := SaveSample(lp, st, ode.y(s1), ode.time(s1), slot, first, tIdx);
        if sv.Ok? {
          LoopStaysInSlot(lp, ode, sv.value, s1, slot, first, ti + 1, tIdx + 1);
        }
      } else {
        LoopStaysInSlot(lp, ode, st, s1, slot, first, ti + 1, tIdx);
      }
    }
  }

  /** Entries at output indices below tIdx are never overwritten. */
  lemma {:induction false} LoopKeepsEarlierSamples<S(!new)>(lp: LoopParams, ode: TimeStepping.Ode<S>, st: Store, s: S,
                                                            slot: nat, first: bool, ti: nat, tIdx: nat, q: nat)
    requires lp.period != 0.0 && q < tIdx && (slot, q) in st.solution
    ensures var r := RunLoop(lp, ode, st, s, slot, first, ti, tIdx);
            r.Ok? ==> (slot, q) in r.value.0.solution && r.value.0.solution[(slot, q)] == st.solution[(slot, q)]
    decreases lp.nt - ti
  {
    if ode.successful(s) && ti < lp.nt {
      var s1 := ode.integrate(s, ode.time(s) + lp.dt);
      if Saves(ti, lp.period) {
        var sv := SaveSample(lp, st, ode.y(s1), ode.time(s1), slot, first, tIdx);
        if sv.Ok? {
          LoopKeepsEarlierSamples(lp, ode, sv.value, s1, slot, first, ti + 1, tIdx + 1, q);
        }
      } else {
        LoopKeepsEarlierSamples(lp, ode, st, s1, slot, first, ti + 1, tIdx, q);
      }
    }
  }

  /** Integration comes before saving: the first output of a path is the state
      after one step, not the start vector. */
  lemma FirstSampleIsIntegrated<S(!new)>(lp: LoopParams, ode: TimeStepping.Ode<S>, st: Store, s: S, slot: nat, first: bool)
    requires lp.period != 0.0 && lp.nt > 0 && ode.successful(s)
    ensures var r := RunLoop(lp, ode, st, s, slot, first, 0, 0);
            var y1 := ode.y(ode.integrate(s, ode.time(s) + lp.dt));
            r.Ok? ==> (slot, 0) in r.value.0.solution && r.value.0.solution[(slot, 0)] == y1[..|y1| - 1]
  {
    var s1 := ode.integrate(s, ode.time(s) + lp.dt);
    assert 0 as real / lp.period == 0.0;
    var sv := SaveSample(lp, st, ode.y(s1), ode.time(s1), slot, first, 0);
    if sv.Ok? {
      LoopKeepsEarlierSamples(lp, ode, sv.value, s1, slot, first, 1, 1, 0);
    }
  }

  /** Only the first path writes the time axis and the two fields. */
  lemma {:induction false} LaterPathsKeepTimeAxis<S(!new)>(lp: LoopParams, ode: TimeStepping.Ode<S>, st: Store, s: S,
                                                           slot: nat, ti: nat, tIdx: nat)
    requires lp.period != 0.0
    ensures var r := RunLoop(lp, ode, st, s, slot, false, ti, tIdx);
            r.Ok? ==> r.value.0.t == st.t && r.value.0.aField == st.aField && r.value.0.eField == st.eField
    decreases lp.nt - ti
  {
    if ode.successful(s) && ti < lp.nt {
      var s1 := ode.integrate(s, ode.time(s) + lp.dt);
      if Saves(ti, lp.period) {
        var sv := SaveSample(lp, st, ode.y(s1), ode.time(s1), slot, false, tIdx);
        if sv.Ok? {
          LaterPathsKeepTimeAxis(lp, ode, sv.value, s1, slot, ti + 1, tIdx + 1);
        }
      } else {
        LaterPathsKeepTimeAxis(lp, ode, st, s1, slot, ti + 1, tIdx);
      }
    }
  }

  /** With the right state length and slot, the loop raises nothing as long
      as its saves fit into the output slots left, whether or not the
      integrator fails on the way. */
  lemma {:induction false} LoopFits<S(!new)>(lp: LoopParams, ode: TimeStepping.Ode<S>, st: Store, s: S,
                                             slot: nat, first: bool, ti: nat, tIdx: nat)
    requires lp.period != 0.0 && KeepsLength(ode)
    requires |ode.y(s)| == 4 * lp.nk1 + 1 && slot < lp.nSlots
    requires tIdx + SavesIn(lp.period, ti, lp.nt) <= lp.ntOut
    ensures RunLoop(lp, ode, st, s, slot, first, ti, tIdx).Ok?
    decreases lp.nt - ti
  {
    if ode.successful(s) && ti < lp.nt {
      var s1 := ode.integrate(s, ode.time(s) + lp.dt);
      if Saves(ti, lp.period) {
        var sv := SaveSample(lp, st, ode.y(s1), ode.time(s1), slot, first, tIdx);
        LoopFits(lp, ode, sv.value, s1, slot, first, ti + 1, tIdx + 1);
      } else {
        LoopFits(lp, ode, st, s1, slot, first, ti + 1, tIdx);
      }
    }
  }

  /** Conversely, when the integrator never fails, more saves than output
      slots end in an IndexError. */
  lemma {:induction false} LoopOverflows<S(!new)>(lp: LoopParams, ode: TimeStepping.Ode<S>, st: Store, s: S,
                                                  slot: nat, first: bool, ti: nat, tIdx: nat)
    requires lp.period != 0.0 && KeepsLength(ode) && AlwaysSucceeds(ode)
    requires |ode.y(s)| == 4 * lp.nk1 + 1 && slot < lp.nSlots
    requires tIdx <= lp.ntOut < tIdx + SavesIn(lp.period, ti, lp.nt)
    ensures RunLoop(lp, ode, st, s, slot, first, ti, tIdx) == Err(IndexOutOfRange)
    decreases lp.nt - ti
  {
    var s1 := ode.integrate(s, ode.time(s) + lp.dt);
    assert ode.successful(s);
    if Saves(ti, lp.period) {
      if tIdx < lp.ntOut {
        var sv := SaveSample(lp, st, ode.y(s1), ode.time(s1), slot, first, tIdx);
        LoopOverflows(lp, ode, sv.value, s1, slot, first, ti + 1, tIdx + 1);
      }
    } else {
      LoopOverflows(lp, ode, st, s1, slot, first, ti + 1, tIdx);
    }
  }

  // ---------------------------------------------------------------------
  // An integer output period

  /** For an integer period p, `ti % p == 0` in the real sense is the
      integer remainder test. */
  lemma SavesAtMultiples(p: nat, ti: nat)
    requires p >= 1
    ensures Saves(ti, p as real) <==> ti % p == 0
  {
    var q := ti as real / p as real;
    if ti % p == 0 {
      Arith.ExactQuotient(ti, p);
      assert ti as real == (ti / p) as real * p as real;
      assert q == (ti / p) as real;
    }
    if q.Floor as real == q {
      var m := q.Floor;
      assert ti as real == m as real * p as real;
      assert ti == m * p;
      Arith.DivModUnique(ti, p, m, 0);
    }
  }

  /** The saves of the steps a .. c split at any b between them. */
  lemma {:induction false} SavesSplit(period: real, a: nat, b: nat, c: nat)
    requires period != 0.0 && a <= b <= c
    ensures SavesIn(period, a, c) == SavesIn(period, a, b) + SavesIn(period, b, c)
    decreases b - a
  {
    if a < b {
      SavesSplit(period, a + 1, b, c);
    }
  }

  /** One period of steps p j .. p (j + 1) - 1 holds exactly one save. */
  lemma {:induction false} OneSavePerPeriod(p: nat, j: nat)
    requires p >= 1
    ensures SavesIn(p as real, p * j, p * (j + 1)) == 1
  {
    SavesAtMultiples(p, p * j);
    Arith.RowMajor(p, j, 0);
    NoSavesInside(p, j, 1);
  }

  lemma {:induction false} NoSavesInside(p: nat, j: nat, r: nat)
    requires p >= 1 && 1 <= r <= p
    ensures SavesIn(p as real, p * j + r, p * (j + 1)) == 0
    decreases p - r
  {
    if r < p {
      SavesAtMultiples(p, p * j + r);
      Arith.RowMajor(p, j, r);
      NoSavesInside(p, j, r + 1);
    }
  }

  /** With an integer period p and Nt = p Nt_out steps, a path saves exactly
      Nt_out times. */
  lemma {:induction false} IntegerPeriodFillsOutput(p: nat, n: nat)
    requires p >= 1
    ensures SavesIn(p as real, 0, p * n) == n
  {
    if n > 0 {
      IntegerPeriodFillsOutput(p, n - 1);
      assert p * n == p * (n - 1) + p;
      SavesSplit(p as real, 0, p * (n - 1), p * n);
      OneSavePerPeriod(p, n - 1);
    }
  }

  /** So with that period, a path whose integrator never fails fills the
      output slots and raises nothing. */
  lemma IntegerPeriodRunsClean<S(!new)>(lp: LoopParams, ode: TimeStepping.Ode<S>, st: Store, s: S,
                                        p: nat, slot: nat, first: bool)
    requires p >= 1 && lp.period == p as real && lp.nt == p * lp.ntOut
    requires KeepsLength(ode) && |ode.y(s)| == 4 * lp.nk1 + 1 && slot < lp.nSlots
    ensures RunLoop(lp, ode, st, s, slot, first, 0, 0).Ok?
  {
    IntegerPeriodFillsOutput(p, lp.ntOut);
    LoopFits(lp, ode, st, s, slot, first, 0, 0);
  }

  // ---------------------------------------------------------------------
  // The path loop

  /** The system parts of a path: the conduction band, the thermal start
      parameters, the start time and the exact emission observable
      `emission_exact_path`, applied to the path, its slot of `solution`, the
      recorded A and E, and the emission so far. */
  datatype Physics = Physics(
    ec: (real, real) -> real, eFermi: real, temperature: real, exp: real -> real, t0: real,
    emission: (seq<Plane.Point>, map<nat, Vec>, map<nat, real>, map<nat, real>, Emission) -> Emission)

  /** The conduction-band energies along a path. */
  function BandAlong(ph: Physics, path: seq<Plane.Point>): (r: seq<real>)
    ensures |r| == |path|
  {
    seq(|path|, k requires 0 <= k < |path| => ph.ec(path[k].x, path[k].y))
  }

  /** The samples of one slot of `solution`: `solution[:, Nk2_idx, :, :]`. */
  function SlotSamples(lp: LoopParams, st: Store, slot: nat): map<nat, Vec>
  {
    map q | 0 <= q < lp.ntOut && (slot, q) in st.solution :: st.solution[(slot, q)]
  }

  /** The slot of path idx: its own with save_full, slot 0 otherwise. */
  function SlotOf(idx: nat, saveFull: bool): (r: nat)
    ensures !saveFull ==> r == 0
  {
    if saveFull then idx else 0
  }

  /** One path: its start vector given to the integrator, its time loop, and
      its emission added to the total.  The time axis is built on path 0:
      every later path keeps it; a path keeps every sample stored before it
      and adds samples only in its own slot. */
  function PathEnd<S(!new)>(lp: LoopParams, ph: Physics, ode: TimeStepping.Ode<S>, st: Store, s: S, em: Emission,
                            path: seq<Plane.Point>, idx: nat, saveFull: bool): (r: Result<(Store, S, Emission), SbeError>)
    requires lp.period != 0.0 && CuedSetup.PositiveExp(ph.exp)
    ensures r.Ok? && idx != 0 ==> r.value.0.t == st.t && r.value.0.aField == st.aField && r.value.0.eField == st.eField
    ensures r.Ok? ==> st.solution.Keys <= r.value.0.solution.Keys
    ensures r.Ok? ==> forall key :: key in r.value.0.solution && key !in st.solution ==> key.0 == SlotOf(idx, saveFull)
  {
    var y0 := TwoBandSolver.StartVector(ph.eFermi, ph.temperature, BandAlong(ph, path), ph.exp);
    var s1 := ode.setInitial(s, idx, y0, ph.t0);
    var slot := SlotOf(idx, saveFull);
    LoopStaysInSlot(lp, ode, st, s1, slot, idx == 0, 0, 0);
    LaterPathsKeepTimeAxis(lp, ode, st, s1, slot, 0, 0);
    match RunLoop(lp, ode, st, s1, slot, idx == 0, 0, 0)
    case Err(e) => Err(e)
    case Ok((st1, s2)) => Ok((st1, s2, ph.emission(path, SlotSamples(lp, st1, slot), st1.aField, st1.eField, em)))
  }

  /** The path loop after its first n paths: no stored sample is lost, and
      with save_full the new samples lie in the slots of those n paths. */
  function RunPaths<S(!new)>(lp: LoopParams, ph: Physics, ode: TimeStepping.Ode<S>, st: Store, s: S, em: Emission,
                             paths: seq<seq<Plane.Point>>, n: nat, saveFull: bool): (r: Result<(Store, S, Emission), SbeError>)
    requires lp.period != 0.0 && CuedSetup.PositiveExp(ph.exp) && n <= |paths|
    ensures r.Ok? ==> st.solution.Keys <= r.value.0.solution.Keys
    ensures r.Ok? && saveFull ==> forall key :: key in r.value.0.solution && key !in st.solution ==> key.0 < n
  {
    if n == 0 then Ok((st, s, em))
    else
      match RunPaths(lp, ph, ode, st, s, em, paths, n - 1, saveFull)
      case Err(e) => Err(e)
      case Ok((st1, s1, em1)) => PathEnd(lp, ph, ode, st1, s1, em1, paths[n - 1], n - 1, saveFull)
  }

  /** Every key of `solution` lies in slot 0. */
  ghost predicate OnlySlotZero(st: Store)
  {
    forall key :: key in st.solution ==> key.0 == 0
  }

  /** Without save_full only slot 0 of `solution` is ever written. */
  lemma {:induction false} WithoutSaveFullOnlySlotZero<S(!new)>(
    lp: LoopParams, ph: Physics, ode: TimeStepping.Ode<S>, st: Store, s: S, em: Emission,
    paths: seq<seq<Plane.Point>>, n: nat)
    requires lp.period != 0.0 && CuedSetup.PositiveExp(ph.exp) && n <= |paths| && OnlySlotZero(st)
    ensures var r := RunPaths(lp, ph, ode, st, s, em, paths, n, false);
            r.Ok? ==> OnlySlotZero(r.value.0)
  {
    if n > 0 {
      WithoutSaveFullOnlySlotZero(lp, ph, ode, st, s, em, paths, n - 1);
      var before := RunPaths(lp, ph, ode, st, s, em, paths, n - 1, false);
      if before.Ok? {
        var (st1, s1, em1) := before.value;
        var path := paths[n - 1];
        var y0 := TwoBandSolver.StartVector(ph.eFermi, ph.temperature, BandAlong(ph, path), ph.exp);
        var s2 := ode.setInitial(s1, n - 1, y0, ph.t0);
        LoopStaysInSlot(lp, ode, st1, s2, 0, n - 1 == 0, 0, 0);
      }
    }
  }

  /** The time axis and the fields after any number of paths are those the
      first path recorded. */
  lemma {:induction false} TimeAxisFromFirstPath<S(!new)>(
    lp: LoopParams, ph: Physics, ode: TimeStepping.Ode<S>, st: Store, s: S, em: Emission,
    paths: seq<seq<Plane.Point>>, n: nat, saveFull: bool)
    requires lp.period != 0.0 && CuedSetup.PositiveExp(ph.exp) && 1 <= n <= |paths|
    ensures var r, r1 := RunPaths(lp, ph, ode, st, s, em, paths, n, saveFull), RunPaths(lp, ph, ode, st, s, em, paths, 1, saveFull);
            r.Ok? ==> r1.Ok? && r.value.0.t == r1.value.0.t && r.value.0.aField == r1.value.0.aField
                      && r.value.0.eField == r1.value.0.eField
  {
    if n > 1 {
      TimeAxisFromFirstPath(lp, ph, ode, st, s, em, paths, n - 1, saveFull);
      var before := RunPaths(lp, ph, ode, st, s, em, paths, n - 1, saveFull);
      if before.Ok? {
        var (st1, s1, em1) := before.value;
        var path := paths[n - 1];
        var y0 := TwoBandSolver.StartVector(ph.eFermi, ph.temperature, BandAlong(ph, path), ph.exp);
        var s2 := ode.setInitial(s1, n - 1, y0, ph.t0);
        LaterPathsKeepTimeAxis(lp, ode, st1, s2, SlotOf(n - 1, saveFull), 0, 0);
      }
    }
  }

  // ---------------------------------------------------------------------
  // Normalisation

  /** The Brillouin zone kind with its weight: the line spacing dk for
      '2line', the k-point weight for 'full'. */
  datatype Zone = TwoLine(dk: real) | Full(kweight: real)

  /** The factor of lines 286-291: dk/(4 pi) or kweight. */
  function ZoneFactor(z: Zone, pi: real): real
    requires pi > 0.0
  {
    if z.TwoLine? then z.dk / (4.0 * pi) else z.kweight
  }

  function ScaleAll(c: real, v: seq<real>): (r: seq<real>)
    ensures |r| == |v| && forall k :: 0 <= k < |v| ==> r[k] == c * v[k]
  {
    seq(|v|, k requires 0 <= k < |v| => c * v[k])
  }

  /** The normalised emission: both components scaled by the zone factor. */
  function Normalised(z: Zone, pi: real, em: Emission): (r: Emission)
    requires pi > 0.0
    ensures |r.eDir| == |em.eDir| && |r.ortho| == |em.ortho|
    ensures z.TwoLine? ==> forall k :: 0 <= k < |em.eDir| ==> r.eDir[k] * (4.0 * pi) == z.dk * em.eDir[k]
    ensures z.TwoLine? ==> forall k :: 0 <= k < |em.ortho| ==> r.ortho[k] * (4.0 * pi) == z.dk * em.ortho[k]
    ensures z.Full? ==> r == Emission(ScaleAll(z.kweight, em.eDir), ScaleAll(z.kweight, em.ortho))
  {
    Emission(ScaleAll(ZoneFactor(z, pi), em.eDir), ScaleAll(ZoneFactor(z, pi), em.ortho))
  }

  // ---------------------------------------------------------------------
  // The containers and the driver

  /** The solution containers and the exact emission arrays of `sbe_solver`. */
  class SbeContainers {
    var solution: map<(nat, nat), Vec>
    var t: map<nat, real>
    var aField: map<nat, real>
    var eField: map<nat, real>
    var iEDir: seq<real>
    var iOrtho: seq<real>

    function Snapshot(): Store
      reads this
    {
      Store(solution, t, aField, eField)
    }

    function Exact(): Emission
      reads this
    {
      Emission(iEDir, iOrtho)
    }

    /** `np.empty` containers and zeroed emission arrays of Nt entries. */
    constructor (ntOut: nat)
      ensures Snapshot() == Store(map[], map[], map[], map[])
      ensures Exact() == Emission(seq(ntOut, k => 0.0), seq(ntOut, k => 0.0))
    {
      solution, t, aField, eField := map[], map[], map[], map[];
      iEDir, iOrtho := seq(ntOut, k => 0.0), seq(ntOut, k => 0.0);
    }
  }

  /** The time loop of one path (sbe/solver/solver.py:206-228). */
  method SolvePath<S(!new)>(lp: LoopParams, ode: TimeStepping.Ode<S>, s0: S, slot: nat, first: bool, c: SbeContainers)
    returns (r: Result<S, SbeError>)
    requires lp.period != 0.0
    modifies c
    ensures var spec := RunLoop(lp, ode, old(c.Snapshot()), s0, slot, first, 0, 0);
            (r.Ok? <==> spec.Ok?) && (r.Ok? ==> c.Snapshot() == spec.value.0 && r.value == spec.value.1)
    ensures r.Err? ==> r.error == RunLoop(lp, ode, old(c.Snapshot()), s0, slot, first, 0, 0).error
  {
    var s := s0;
    var ti, tIdx := 0, 0;
    ghost var goal := RunLoop(lp, ode, c.Snapshot(), s0, slot, first, 0, 0);
    while ode.successful(s) && ti < lp.nt
      invariant goal == RunLoop(lp, ode, c.Snapshot(), s, slot, first, ti, tIdx)
      decreases lp.nt - ti
    {
      s := ode.integrate(s, ode.time(s) + lp.dt);
      if Saves(ti, lp.period) {
        var y := ode.y(s);
        if |y| != 4 * lp.nk1 + 1 {
          return Err(ReshapeMismatch);
        }
        if slot >= lp.nSlots || tIdx >= lp.ntOut {
          return Err(IndexOutOfRange);
        }
        c.solution := c.solution[(slot, tIdx) := y[..|y| - 1]];
        if first {
          c.t := c.t[tIdx := ode.time(s)];
          c.aField := c.aField[tIdx := y[|y| - 1].re];
          c.eField := c.eField[tIdx := lp.electricField(c.t[tIdx])];
        }
        tIdx := tIdx + 1;
      }
      ti := ti + 1;
    }
    return Ok(s);
  }

  /** One path of `sbe_solver` (sbe/solver/solver.py:152-246). */
  method ProcessPath<S(!new)>(lp: LoopParams, ph: Physics, ode: TimeStepping.Ode<S>, s0: S,
                              path: seq<Plane.Point>, idx: nat, saveFull: bool, c: SbeContainers)
    returns (r: Result<S, SbeError>)
    requires lp.period != 0.0 && CuedSetup.PositiveExp(ph.exp)
    modifies c
    ensures var spec := PathEnd(lp, ph, ode, old(c.Snapshot()), s0, old(c.Exact()), path, idx, saveFull);
            (r.Ok? <==> spec.Ok?) && (r.Ok? ==> c.Snapshot() == spec.value.0 && r.value == spec.value.1 && c.Exact() == spec.value.2)
  {
    var slot := SlotOf(idx, saveFull);
    var y0 := TwoBandSolver.StartVector(ph.eFermi, ph.temperature, BandAlong(ph, path), ph.exp);
    var s := ode.setInitial(s0, idx, y0, ph.t0);
    var em := c.Exact();
    r := SolvePath(lp, ode, s, slot, idx == 0, c);
    if r.Ok? {
      var next := ph.emission(path, SlotSamples(lp, c.Snapshot(), slot), c.aField, c.eField, em);
      c.iEDir, c.iOrtho := next.eDir, next.ortho;
    }
  }

  /** The path loop of `sbe_solver` and the normalisation after it
      (sbe/solver/solver.py:152-246, 286-291). */
  method SbeSolver<S(!new)>(lp: LoopParams, ph: Physics, ode: TimeStepping.Ode<S>, s0: S,
                            paths: seq<seq<Plane.Point>>, saveFull: bool, z: Zone, pi: real, c: SbeContainers)
    returns (r: Result<S, SbeError>)
    requires lp.period != 0.0 && CuedSetup.PositiveExp(ph.exp) && pi > 0.0
    modifies c
    ensures var spec := RunPaths(lp, ph, ode, old(c.Snapshot()), s0, old(c.Exact()), paths, |paths|, saveFull);
            (r.Ok? <==> spec.Ok?)
            && (r.Ok? ==> c.Snapshot() == spec.value.0 && r.value == spec.value.1
                          && c.Exact() == Normalised(z, pi, spec.value.2))
  {
    ghost var st0, em0 := c.Snapshot(), c.Exact();
    var s := s0;
    for idx := 0 to |paths|
      invariant RunPaths(lp, ph, ode, st0, s0, em0, paths, idx, saveFull) == Ok((c.Snapshot(), s, c.Exact()))
    {
      var step := ProcessPath(lp, ph, ode, s, paths[idx], idx, saveFull, c);
      if step.Err? {
        RunPathsStaysFailed(lp, ph, ode, st0, s0, em0, paths, idx + 1, |paths|, saveFull);
        return Err(step.error);
      }
      s := step.value;
    }
    var f := ZoneFactor(z, pi);
    c.iEDir := ScaleAll(f, c.iEDir);
    c.iOrtho := ScaleAll(f, c.iOrtho);
    return Ok(s);
  }

  /** Once a path has raised, the whole path loop has raised. */
  lemma {:induction false} RunPathsStaysFailed<S(!new)>(
    lp: LoopParams, ph: Physics, ode: TimeStepping.Ode<S>, st: Store, s: S, em: Emission,
    paths: seq<seq<Plane.Point>>, m: nat, n: nat, saveFull: bool)
    requires lp.period != 0.0 && CuedSetup.PositiveExp(ph.exp) && m <= n <= |paths|
    requires RunPaths(lp, ph, ode, st, s, em, paths, m, saveFull).Err?
    ensures RunPaths(lp, ph, ode, st, s, em, paths, n, saveFull).Err?
    decreases n - m
  {
    if m < n {
      RunPathsStaysFailed(lp, ph, ode, st, s, em, paths, m + 1, n, saveFull);
    }
  }
}
