/** The set-up steps of the cued solver before the time loop: the choice of
    right-hand side and integrator in `make_rhs_ode` (cued/main.py:287-303)
    and the initial density matrix of a path in `initial_condition`
    (cued/main.py:406-422), a block-diagonal Fermi occupation flattened in
    C order. */
module CuedSetup {
  import opened Cplx
  import opened Outcomes
  import Arith
  import TimeStepping

  // ---------------------------------------------------------------------
  // make_rhs_ode

  datatype Rhs = TwoBandRhs | NBandRhs

  /** The integrator object: a scipy `ode` with zvode and `max_step = dt`, or
      the placeholder 0 that selects the hand-written rk4. */
  datatype Integrator = Zvode(integratorMethod: string, maxStep: real) | NoIntegrator

  datatype SetupError =
    | NotTwoBandSystem  // AttributeError: the 2-band solver with n != 2
    | RhsUnbound        // neither branch bound `rhs_ode`
    | SolverUnbound     // no branch bound `solver`
    | NoBands           // `e_in_path[0, :]` on an empty path
    | NoBandColumn      // `e_in_path[:, 0]` when there are no bands

  /** `make_rhs_ode`: the rhs for '2band' (only with n == 2) or 'nband', the
      integrator for 'bdf', 'adams' or 'rk4'.  Any other solver leaves
      `rhs_ode` unbound, which fails at its first use; any other method leaves
      `solver` unbound, which fails at the return. */
  function MakeRhsOde(solver: string, n: nat, solverMethod: string, dt: real): (r: Result<(Rhs, Integrator), SetupError>)
    ensures r.Ok? <==> ((solver == "2band" && n == 2) || solver == "nband")
                       && solverMethod in {"bdf", "adams", "rk4"}
    ensures r == Err(NotTwoBandSystem) <==> solver == "2band" && n != 2
    ensures r.Ok? ==> (r.value.0 == TwoBandRhs <==> solver == "2band")
    ensures r.Ok? ==> (r.value.1 == NoIntegrator <==> solverMethod == "rk4")
    ensures r.Ok? && r.value.1.Zvode? ==> r.value.1 == Zvode(solverMethod, dt)
  {
    if solver == "2band" && n != 2 then Err(NotTwoBandSystem)
    else if solver != "2band" && solver != "nband" then Err(RhsUnbound)
    else
      var rhs := if solver == "2band" then TwoBandRhs else NBandRhs;
      if solverMethod == "bdf" || solverMethod == "adams" then Ok((rhs, Zvode(solverMethod, dt)))
      else if solverMethod == "rk4" then Ok((rhs, NoIntegrator))
      else Err(SolverUnbound)
  }

  /** The method names the time loop tells apart. */
  function SolverMethodOf(name: string): (r: Option<TimeStepping.SolverMethod>)
    ensures r.Some? <==> name in {"bdf", "adams", "rk4"}
    ensures r == Some(TimeStepping.Rk4) <==> name == "rk4"
  {
    if name == "bdf" then Some(TimeStepping.Bdf)
    else if name == "adams" then Some(TimeStepping.Adams)
    else if name == "rk4" then Some(TimeStepping.Rk4)
    else None
  }

  /** A successful set-up hands the time loop an adaptive integrator exactly
      when the loop treats the method as adaptive. */
  lemma SetupMatchesLoop(solver: string, n: nat, solverMethod: string, dt: real, cfg: TimeStepping.Config)
    requires MakeRhsOde(solver, n, solverMethod, dt).Ok?
    requires Some(cfg.solverMethod) == SolverMethodOf(solverMethod)
    ensures MakeRhsOde(solver, n, solverMethod, dt).value.1.Zvode? <==> TimeStepping.Adaptive(cfg)
  {
  }

  // ---------------------------------------------------------------------
  // initial_condition

  /** `np.exp` is positive. */
  ghost predicate PositiveExp(exp: real -> real)
  {
    forall x :: exp(x) > 0.0
  }

  /** The occupation of a band of energy e: Fermi-Dirac above a temperature of
      1e-5, a step at the Fermi energy (strictly below it occupied) otherwise.
      Either way it is a probability. */
  function Occupation(temperature: real, eFermi: real, exp: real -> real, e: real): (r: real)
    requires PositiveExp(exp)
    ensures 0.0 <= r <= 1.0
    ensures temperature <= 0.00001 ==> (r == 1.0 <==> e < eFermi) && (r == 0.0 <==> e >= eFermi)
  {
    if temperature > 0.00001 then 1.0 / (exp((e - eFermi) / temperature) + 1.0)
    else if eFermi - e > 0.0 then 1.0 else 0.0
  }

  /** Every path point has the same number of bands (a 2-D array). */
  predicate Rectangular(e: seq<seq<real>>)
  {
    forall k :: 0 <= k < |e| ==> |e[k]| == |e[0]|
  }

  /** The C-order position of entry (k, a, b) of an array of n x n blocks. */
  function Index3(n: nat, k: nat, a: nat, b: nat): nat
  {
    (k * n + a) * n + b
  }

  /** Entry (k, a, b) of the Nk x n x n initial density matrices:
      `np.diag(distrib_bands[k, :])` in block k. */
  function DiagonalEntry(e: seq<seq<real>>, temperature: real, eFermi: real, exp: real -> real, k: nat, a: nat, b: nat): Complex
    requires PositiveExp(exp) && k < |e| && a < |e[k]|
  {
    if a == b then OfReal(Occupation(temperature, eFermi, exp, e[k][a])) else Zero
  }

  /** The Nk x n x n array of initial density matrices. */
  function Diagonal(e: seq<seq<real>>, temperature: real, eFermi: real, exp: real -> real): (r: seq<seq<seq<Complex>>>)
    requires PositiveExp(exp) && Rectangular(e) && |e| > 0
    ensures Cube(r, |e[0]|) && |r| == |e|
  {
    var n := |e[0]|;
    seq(|e|, k requires 0 <= k < |e| =>
      seq(n, a requires 0 <= a < n =>
        seq(n, b requires 0 <= b < n => DiagonalEntry(e, temperature, eFermi, exp, k, a, b))))
  }

  /** m has n x n blocks. */
  predicate Cube(m: seq<seq<seq<Complex>>>, n: nat)
  {
    forall k :: 0 <= k < |m| ==> |m[k]| == n && forall a :: 0 <= a < n ==> |m[k][a]| == n
  }

  /** `flatten('C')` of an array of n x n blocks. */
  function FlattenC(m: seq<seq<seq<Complex>>>, n: nat): (r: Vec)
    requires Cube(m, n)
    ensures |r| == |m| * n * n
  {
    if n == 0 then (assert |m| * n * n == 0; [])
    else
      var total := |m| * n * n;
      seq(total, j requires 0 <= j < total =>
        Arith.QuotientBound(j, |m| * n, n);
        Arith.QuotientBound(j / n, |m|, n);
        m[j / n / n][j / n % n][j % n])
  }

  /** Entry (k, a, b) is at C-order position (k n + a) n + b of the flattened
      array. */
  lemma FlattenCAt(m: seq<seq<seq<Complex>>>, n: nat, k: nat, a: nat, b: nat)
    requires Cube(m, n) && k < |m| && a < n && b < n
    ensures Index3(n, k, a, b) < |FlattenC(m, n)| && FlattenC(m, n)[Index3(n, k, a, b)] == m[k][a][b]
  {
    Arith.Index3Parts(n, |m|, k, a, b, Index3(n, k, a, b));
  }

  /** `initial_condition` on values: the two size lookups of
      cued/main.py:410-411 raise IndexError when there are no path points or
      no bands. */
  function InitialState(e: seq<seq<real>>, temperature: real, eFermi: real, exp: real -> real): (r: Result<Vec, SetupError>)
    requires PositiveExp(exp) && Rectangular(e)
    ensures r.Err? <==> |e| == 0 || |e[0]| == 0
    ensures r.Ok? ==> |r.value| == |e| * |e[0]| * |e[0]|
  {
    if |e| == 0 then Err(NoBands)
    else if |e[0]| == 0 then Err(NoBandColumn)
    else Ok(FlattenC(Diagonal(e, temperature, eFermi, exp), |e[0]|))
  }

  /** Entry (k, a, b) of the initial condition is the occupation of band a at
      point k on the diagonal and zero elsewhere. */
  lemma InitialEntryAt(e: seq<seq<real>>, temperature: real, eFermi: real, exp: real -> real, k: nat, a: nat, b: nat)
    requires PositiveExp(exp) && Rectangular(e) && k < |e| && a < |e[0]| && b < |e[0]|
    ensures InitialState(e, temperature, eFermi, exp).Ok?
    ensures var s, j := InitialState(e, temperature, eFermi, exp).value, Index3(|e[0]|, k, a, b);
            && j < |s|
            && s[j] == if a == b then OfReal(Occupation(temperature, eFermi, exp, e[k][a])) else Zero
  {
    FlattenCAt(Diagonal(e, temperature, eFermi, exp), |e[0]|, k, a, b);
  }

  /** At zero temperature the diagonal entry of band a at point k is one
      exactly when the band lies strictly below the Fermi energy, and zero
      otherwise. */
  lemma ZeroTemperatureFilling(e: seq<seq<real>>, temperature: real, eFermi: real, exp: real -> real, k: nat, a: nat)
    requires PositiveExp(exp) && Rectangular(e) && k < |e| && a < |e[0]| && temperature <= 0.00001
    ensures var s, j := InitialState(e, temperature, eFermi, exp).value, Index3(|e[0]|, k, a, a);
            && j < |s|
            && (s[j] == One <==> e[k][a] < eFermi) && (s[j] != One ==> s[j] == Zero)
  {
    InitialEntryAt(e, temperature, eFermi, exp, k, a, a);
  }

  /** Above the cut-off temperature every occupation lies strictly between 0
      and 1. */
  lemma FermiOccupationBounds(temperature: real, eFermi: real, exp: real -> real, e: real)
    requires PositiveExp(exp) && temperature > 0.00001
    ensures 0.0 < Occupation(temperature, eFermi, exp, e) < 1.0
  {
    var x := exp((e - eFermi) / temperature);
    assert x > 0.0;
    assert (1.0 / (x + 1.0)) * (x + 1.0) == 1.0;
  }

  /** The rows of a three-dimensional array. */
  function Grid3(m: array3<Complex>): (r: seq<seq<seq<Complex>>>)
    reads m
    ensures |r| == m.Length0 && (m.Length1 == m.Length2 ==> Cube(r, m.Length1))
  {
    seq(m.Length0, k requires 0 <= k < m.Length0 reads m =>
      seq(m.Length1, a requires 0 <= a < m.Length1 reads m =>
        seq(m.Length2, b requires 0 <= b < m.Length2 reads m => m[k, a, b])))
  }

  /** cued/main.py:411-422: a zeroed Nk x n x n array whose block k receives
      `np.diag(distrib_bands[k, :])`, flattened in C order. */
  method InitialCondition(e: seq<seq<real>>, temperature: real, eFermi: real, exp: real -> real)
    returns (r: Result<Vec, SetupError>)
    requires PositiveExp(exp) && Rectangular(e)
    ensures r == InitialState(e, temperature, eFermi, exp)
  {
    if |e| == 0 {
      return Err(NoBands);
    }
    if |e[0]| == 0 {
      return Err(NoBandColumn);
    }
    var nk, n := |e|, |e[0]|;
    var m := new Complex[nk, n, n]((k, a, b) => Zero);
    for k := 0 to nk
      invariant forall x, y, z :: 0 <= x < k && 0 <= y < n && 0 <= z < n ==>
                  m[x, y, z] == DiagonalEntry(e, temperature, eFermi, exp, x, y, z)
    {
      for a := 0 to n
        invariant forall x, y, z :: 0 <= x < nk && 0 <= y < n && 0 <= z < n && (x < k || (x == k && y < a)) ==>
                    m[x, y, z] == DiagonalEntry(e, temperature, eFermi, exp, x, y, z)
      {
        for b := 0 to n
          invariant forall x, y, z :: 0 <= x < nk && 0 <= y < n && 0 <= z < n && (x < k || (x == k && (y < a || (y == a && z < b)))) ==>
                      m[x, y, z] == DiagonalEntry(e, temperature, eFermi, exp, x, y, z)
        {
          m[k, a, b] := if a == b then OfReal(Occupation(temperature, eFermi, exp, e[k][a])) else Zero;
        }
      }
    }
    ghost var d := Diagonal(e, temperature, eFermi, exp);
    forall x | 0 <= x < nk ensures Grid3(m)[x] == d[x] {
      forall y | 0 <= y < n ensures Grid3(m)[x][y] == d[x][y] {
        assert forall z :: 0 <= z < n ==> Grid3(m)[x][y][z] == d[x][y][z];
      }
    }
    assert Grid3(m) == d;
    return Ok(FlattenC(Grid3(m), n));
  }
}
