# A verified model of the hfsbe / cued semiconductor-Bloch-equation core

hfsbe solves the semiconductor Bloch equations (SBE) for a crystal driven by
a laser pulse. The electronic density matrix is sampled on a mesh of
k-points in the Brillouin zone. It is integrated in time, path by path, and
the currents that give the high-harmonic emission are accumulated from it.

This project models the core of that pipeline in Dafny:

- **Meshes** (`KMesh`): the two-line mesh of `mesh` and the hexagonal
  Monkhorst-Pack mesh of `hex_mesh`. This covers the hexagon test
  `is_in_hex`, the edge reflection `reflect_point`, the `'M'` folding loop
  and the single `'K'` shift.
- **Work partition** (`Partition`): the planner at the start of
  `sbe_solver`. It chooses between combined, parameter-parallel and
  path-parallel modes, or stops the run with the candidate group sizes.
  Also here are `make_subcommunicators` and the test that decides which
  ranks write output.
- **Point-parallel reshaping** (`PointParallel`): the tail of `make_BZ`.
  It turns Nk2 paths of Nk1 points into Nk1 * Nk2 single-point paths.
- **Set-up** (`CuedSetup`): the choice of rhs and integrator in
  `make_rhs_ode`, and the Fermi-occupied, block-diagonal initial density
  matrix of `initial_condition`, flattened in C order.
- **Time stepping** (`TimeStepping`, `RungeKutta`): the path loop and
  time loop of `run_sbe`, `calculate_solution_at_timestep`,
  `calculate_currents`, and the fixed-step integrator `rk_integrate`.
- **Post-processing and spectra** (`PostProcessing`, `Spectral`):
  `update_currents_with_kweight`, the derivative `diff`, the
  `fourier`/`ifourier` pair with their `fftshift`/`ifftshift` rotations,
  the `parzen` window, and the centred zero padding and intensity of
  `fourier_current_intensity`.
- **Older two-band solver** (`TwoBandSolver`, `SbeDriver`), from
  `sbe/solver/solver.py`:
  - the length- and velocity-gauge kernels `flength` and `fvelocity`,
    and their selection in `make_fnumba`;
  - its `initial_condition` and gradient-based `diff`;
  - the path loop of `sbe_solver` with its output sampling, and the
    normalisation of the exact emission.

How things are represented:

- **Complex numbers** are pairs of reals (`Cplx`). Integers and reals are
  exact.
- **Floating-point division** by zero, which numpy turns into inf/nan
  rather than raising, is modelled as the `Spectral.Float` value
  `NonFinite`. A Python float division by zero, which does raise, is an
  error value.
- **Error paths the source raises on** become `Result` values. These
  include the AttributeError of `make_rhs_ode` and `make_fnumba`, the
  ValueError of `diff`, an IndexError past the `solution` array, a
  reshape of the wrong size, `system.exit()`, and the IndexError of
  `t[-1]` on an empty axis.
- **Code outside this model is passed in as function values.** This
  covers the integrator object (scipy `ode` with zvode), the right-hand
  side `rhs_ode`, E(t), the band energies and dipoles, the current and
  emission observables, `fft`/`ifft` and `np.exp`.
- **pi and sqrt(3)** are parameters. The hexagon and 'K' lemmas only
  assume that they are positive and that `s * s == 3`.
- **State the source changes in place is modelled as a class.**
  - The containers `T` and `Mpi`/`P`, and the solution and emission of
    `sbe_solver`, are classes. Their methods update fields under
    `modifies` clauses.
  - Numpy arrays that are changed in place are `array`s: the
    post-processing arrays, the rhs buffer `x`, the FFT buffer, the
    reshaped path buffer and the initial-condition cube.
  - Each method is proved against a specification function of the old
    state. The lemmas are about that function.

## Model

| member | source | states |
|---|---|---|
| KMesh.Linspace | hfsbe/brillouin/mesh.py:12-13 | `num` points; the first is `lo` and the last `hi` |
| KMesh.LinspaceBounds | hfsbe/brillouin/mesh.py:12-13 | every point of an increasing linspace lies between its ends |
| KMesh.Alpha | hfsbe/brillouin/mesh.py:12-13 | Nk offsets, one per cell |
| KMesh.AlphaAt | hfsbe/brillouin/mesh.py:12-13 | offset j is the centre (2j + 1 - N)/(2N) of cell j of N equal cells of the unit interval centred at 0 |
| KMesh.AlphaSymmetric | hfsbe/brillouin/mesh.py:12-13 | the offsets are symmetric about Gamma: `alpha[N-1-j] == -alpha[j]` |
| KMesh.AlphaStep | hfsbe/brillouin/mesh.py:12-13 | consecutive offsets are exactly 1/N apart |
| KMesh.LinePath | hfsbe/brillouin/mesh.py:23-31 | one path has `Nk_in_path` points |
| KMesh.LinePaths | hfsbe/brillouin/mesh.py:23-34 | two paths (index -1, then 1), each of `Nk_in_path` points |
| KMesh.LinePathSpacing | hfsbe/brillouin/mesh.py:12-36 | consecutive points of a path are `dk * E_dir` apart, with `dk = L / Nk_in_path` |
| KMesh.LinePathsOffset | hfsbe/brillouin/mesh.py:16-28 | corresponding points of the two paths differ by `2 k_ortho`, and `k_ortho` is perpendicular to `E_dir` |
| KMesh.ConcatAppend | hfsbe/brillouin/mesh.py:30-34 | the flat mesh of the paths plus one new path is the old mesh followed by that path |
| KMesh.Mesh | hfsbe/brillouin/mesh.py:6-38 | fails exactly for `Nk_in_path == 0` or `a == 0`; otherwise returns `dk = L/Nk`, the two paths, and a mesh that is their concatenation |
| KMesh.IsInHexSymmetric | hfsbe/brillouin/mesh.py:45-52 | the hexagon test depends only on \|x\| and \|y\| (invariant under both axis reflections) |
| KMesh.IsInHex | hfsbe/brillouin/mesh.py:45-52 | a point inside lies between the top and bottom edges; for a positive sqrt(3) the points inside are exactly those on the inner side of all six edges |
| KMesh.ReflectPoint | hfsbe/brillouin/mesh.py:54-74 | the point is moved by one of +-b2, +-b1, +-(b1 + b2) or not at all; a point inside the hexagon is not moved |
| KMesh.IsInHexBoundaryInclusive | hfsbe/brillouin/mesh.py:45-52 | the boundary is inside: the top vertex above Gamma and the corner on the x axis pass the test |
| KMesh.ReflectCovers | hfsbe/brillouin/mesh.py:54-74 | a point is outside the hexagon if and only if one of the six edge tests of `reflect_point` fires |
| KMesh.Fold | hfsbe/brillouin/mesh.py:94-96 | a folded result is inside the hexagon; a point already inside is returned unchanged |
| KMesh.FoldIntoHex | hfsbe/brillouin/mesh.py:94-96 | the `while not is_in_hex` loop returns what `Fold` specifies |
| KMesh.AlphaK1 | hfsbe/brillouin/mesh.py:107 | Nk1 offsets along `b_a1` |
| KMesh.AlphaK2 | hfsbe/brillouin/mesh.py:108 | Nk2 offsets along `b_a2` |
| KMesh.HexPathPoints | hfsbe/brillouin/mesh.py:82-100 | one path has Nk1 points |
| KMesh.HexPaths | hfsbe/brillouin/mesh.py:80-122 | for 'M' and 'K', Nk2 paths of Nk1 points each; for any other alignment, no paths |
| KMesh.MPointsInHex | hfsbe/brillouin/mesh.py:81-100 | every point of the 'M' mesh lies in the hexagon |
| KMesh.KOffsetsBounded | hfsbe/brillouin/mesh.py:107-108 | the 'K' offsets lie in [-1/2, 1] and [0, 1/2] |
| KMesh.KRawCoordinates | hfsbe/brillouin/mesh.py:103-112 | the raw 'K' point is ((8u + 4v) pi/(3a), 4 sqrt3 v pi/(3a)) |
| KMesh.KShiftLandsInside | hfsbe/brillouin/mesh.py:112-117 | a raw 'K' point that is outside the hexagon lands inside after the single shift |
| KMesh.KPointsInHex | hfsbe/brillouin/mesh.py:102-120 | with sqrt3 * sqrt3 == 3, every point of the 'K' mesh lies in the hexagon, so one shift suffices |
| KMesh.HexPath | hfsbe/brillouin/mesh.py:82-100 | a path is built exactly when every point's fold ends within the fuel, and then point i is the mesh point (i2, i) |
| KMesh.PathsAgree | hfsbe/brillouin/mesh.py:80-122 | paths that agree point by point with the mesh points are the paths of `hex_mesh` |
| KMesh.HexMesh | hfsbe/brillouin/mesh.py:41-122 | zero division exactly for `Nk1 == 0`, `Nk2 == 0`, or 'K' with `a == 0`; 'M' with `a == 0` divides by zero in numpy, so `is_in_hex` compares with inf and every raw point counts as inside: the paths are then `UnfoldedPaths` when pi sqrt3 > 0, and otherwise the fold does not end; in every other case, success means the paths are `HexPaths` and the mesh is their concatenation, and the call succeeds whenever the folds end |
| KMesh.UnfoldedPaths | hfsbe/brillouin/mesh.py:82-100 | Nk2 paths of Nk1 raw points each, none of them reflected |
| Partition.Range | cued/main.py:76 | `range(n)` is 0, 1, ..., n-1 |
| Partition.StrideMembers | cued/main.py:54 | `list(range(C))[start::step]` holds exactly the numbers below C that are congruent to `start` modulo `step` |
| Partition.StrideIncreasing | cued/main.py:54 | the stride is strictly increasing and never below its start |
| Partition.StrideLength | cued/main.py:54 | over q whole periods, the stride from the k-th element of a residue class on has q - k entries |
| Partition.CandidatesBelowMembers | cued/main.py:58-61 | the list is strictly increasing; x is in it if and only if x = i * Nk2 with 2 <= i < bound and C % i == 0 |
| Partition.CandidatesBelow | cued/main.py:58-61 | at most one candidate per i, each at least 2 * Nk2 |
| Partition.SelectBranch | cued/main.py:47-77 | the sub-group branches are taken exactly when size > Nk2, size > C and points are not distributed; Nk2 == 0 there is the raising branch; combined mode exactly when that guard, Nk2 >= 1 and its three divisibility conditions hold; the parameter branch only when C >= Nk2 or a path list without point distribution, the path branch otherwise |
| Partition.PlanFor | cued/main.py:47-77 | raises exactly in the Nk2 == 0 branch and exits exactly in the failure branch; only combined mode sets mod and colour and it is path-parallel; without path parallelism the combinations are `get_local_idx(C)` |
| Partition.SubcommFor | cued/main.py:93-110 | combined mode: one path, `mod`, split by colour; point or path distribution: one shared group; otherwise every rank its own group with all Nk2 paths |
| Partition.WritesOutput | cued/main.py:740 | rank 0 and every rank without path parallelism write; another rank with path parallelism writes exactly when its mod is 0 (None is not 0) |
| Partition.CombinedShape | cued/main.py:47-53 | combined mode has at least two sub-groups of Nk2 ranks each, and every sub-group gets the same number of combinations |
| Partition.StrideOfResidue | cued/main.py:54 | a stride over q whole periods of its step has q entries, the j-th being start + j * step |
| Partition.CombinedModeLists | cued/main.py:51-56 | combined mode: colour `rank // Nk2`, path `rank % Nk2`; the combinations are those congruent to the colour, C/params_sets of them, ascending |
| Partition.CombinedCoverage | cued/main.py:47-56 | combined mode covers the work exactly once: each (combination, path) pair is run by exactly one rank |
| Partition.CombinedWriters | cued/main.py:740 | in combined mode exactly the ranks with path index 0 write, one per sub-group |
| Partition.ExitReportsCandidates | cued/main.py:57-65 | the failure branch runs nothing and reports the sizes i * Nk2 with 2 <= i <= C and C % i == 0, ascending |
| Partition.ParameterBranchPlan | cued/main.py:68-71 | parameter-parallel: combinations from `get_local_idx(C)`, no path parallelism, its own sub-group per rank unless points are distributed (then one shared group), every rank writes, all paths local unless points are distributed |
| Partition.PathBranchPlan | cued/main.py:74-77 | path-parallel: all combinations on every rank, one shared sub-group, only rank 0 writes |
| Partition.InnerBoundRedundant | cued/main.py:48 | the third conjunct of the combined-mode test follows from the first two |
| Partition.FourRanksEightCombinations | cued/main.py:47-71 | size 4, Nk2 2, C 8: the outer guard fails, so the run is parameter-parallel |
| Partition.EightRanksThreeCombinations | cued/main.py:47-65 | size 8, Nk2 2, C 3: combined mode is refused and the only candidate reported is 6 |
| Partition.MpiHelpers.constructor | cued/main.py:34 | the MPI descriptor starts with its rank and size, no local lists and no sub-group |
| Partition.Params.constructor | cued/main.py:33-42 | the planner's parameters start from C, `path_list` and `parallelize_over_points`, with Nk1 = Nk2 = 0 and both parallelisation flags off |
| Partition.CandidateGroupSizes | cued/main.py:58-61 | the `ncpu_list` loop computes the candidate list: strictly increasing, and g is in it if and only if g = i * Nk2 with 2 <= i <= C and C % i == 0 |
| Partition.SbeSolverPartition | cued/main.py:41-82 | for every Nk2, including 0: sets Mpi and P as the selected branch prescribes and then splits the sub-groups, or stops with the candidate list, or raises ZeroDivisionError (`Mpi.size % P.Nk2` with Nk2 == 0), changing nothing |
| Partition.ZeroPathsPlan | cued/main.py:47-71 | with Nk2 == 0 the planner raises exactly when `size > C` and points are not distributed; otherwise the run is parameter-parallel |
| Partition.AssignCombined | cued/main.py:51-56 | sets params_sets, colour, mod, the local combinations and both flags of combined mode, and nothing else |
| Partition.MakeSubcommunicators | cued/main.py:93-110 | local paths and sub-group colour for each of the four cases (combined, points, paths, parameters) |
| PointParallel.GridPointRowMajor | cued/main.py:280-283 | grid point k is point k % Nk1 of path k // Nk1 |
| PointParallel.FlattenedShape | cued/main.py:279-285 | the reshaped mesh has Nk1 * Nk2 paths of one point each |
| PointParallel.FlattenedPlacesPoint | cued/main.py:280-283 | grid point (i, j) lands alone on path Nk1 * i + j |
| PointParallel.FlattenedIsOnto | cued/main.py:280-283 | path k holds grid point (k // Nk1, k % Nk1), so the reshaping is a bijection |
| PointParallel.BzParams.constructor | cued/main.py:270-277 | the BZ parameters start from the given gauge, flag, paths, Nk1, Nk2 and `E_dir`, with `E_ort` still zero |
| PointParallel.FlattenPaths | cued/main.py:279-283 | the double loop fills a fresh buffer with exactly the reshaped paths |
| PointParallel.MakeBZTail | cued/main.py:270-285 | sets `E_ort = (E_y, -E_x)`; with point parallelism, stops for a non-velocity gauge or installs the single-point paths with Nk1 = 1 and Nk2 = Nk1 * Nk2 |
| CuedSetup.MakeRhsOde | cued/main.py:287-303 | succeeds if and only if the solver is '2band' with n == 2 or 'nband', and the method is bdf, adams or rk4; 2band with n != 2 raises; zvode with `max_step = dt` exactly for bdf and adams |
| CuedSetup.SolverMethodOf | cued/main.py:297-301 | recognises exactly bdf, adams and rk4 |
| CuedSetup.SetupMatchesLoop | cued/main.py:297-301 | a successful set-up hands over an adaptive integrator exactly when the time loop treats the method as adaptive |
| CuedSetup.Diagonal | cued/main.py:420-421 | Nk blocks of n x n |
| CuedSetup.FlattenC | cued/main.py:422 | Nk * n * n entries |
| CuedSetup.FlattenCAt | cued/main.py:422 | entry (k, a, b) sits at C-order position (k n + a) n + b |
| CuedSetup.InitialState | cued/main.py:406-422 | fails exactly when there are no path points or no bands (the two size lookups raise IndexError); otherwise has Nk * n * n entries |
| CuedSetup.InitialEntryAt | cued/main.py:414-421 | entry (k, a, b) is the occupation of band a at point k on the diagonal and zero off it |
| CuedSetup.ZeroTemperatureFilling | cued/main.py:416-418 | at temperature <= 1e-5 the diagonal entry is 1 if and only if the band lies strictly below the Fermi energy, else 0 |
| CuedSetup.FermiOccupationBounds | cued/main.py:414-415 | above the cut-off every occupation lies strictly between 0 and 1 |
| CuedSetup.Occupation | cued/main.py:414-415 | every occupation lies in [0, 1]; at or below the 1e-5 cut-off it is 1 exactly for energies below the Fermi energy and 0 otherwise |
| CuedSetup.InitialCondition | cued/main.py:406-422 | the same two errors; otherwise the triple loop over a zeroed array yields exactly `InitialState` |
| RungeKutta.FourStage | cued/main.py:394-403 | the step keeps the state's length |
| RungeKutta.RkIntegrateAsWritten | cued/main.py:394-403 | the step as written keeps the state's length |
| RungeKutta.RkIntegrate | cued/main.py:394-403 | the corrected step keeps the state's length |
| RungeKutta.ZeroRhsFixesState | cued/main.py:394-403 | both steps leave fixed a state whose right-hand side vanishes |
| RungeKutta.ConstantStepIsExact | cued/main.py:394-403 | with a constant rhs c, both steps give exactly y + dt c |
| RungeKutta.LinearStage | cued/main.py:396-399 | on y' = lam y, a stage evaluated at y + a (b y) is lam (1 + a b) y |
| RungeKutta.LinearCombination | cued/main.py:401 | the final combination of multiples of y is a multiple of y |
| RungeKutta.LinearStep | cued/main.py:394-403 | on y' = lam y the step multiplies the state by its amplification factor |
| RungeKutta.ClassicalStepIsTaylor | cued/main.py:394-403 | the corrected step multiplies by 1 + z + z^2/2 + z^3/6 + z^4/24 with z = lam dt (fourth order) |
| RungeKutta.AsWrittenAgreesAtUnitStep | cued/main.py:397-399 | at dt = 1 the step as written is the classical step |
| RungeKutta.AsWrittenOvershoots | cued/main.py:397-399 | on y' = y from y = 1 with dt = 1/2, the step as written gives 89/48 and the classical step gives 211/128 |
| TimeStepping.RowAdd | cued/main.py:392 | `row += buf` entry by entry |
| TimeStepping.ProgressDueAsWritten | cued/main.py:198 | the guard as written divides by zero exactly when Nt // 20 == 0 |
| TimeStepping.ProgressDue | cued/main.py:198 | the corrected guard reports only when asked, and always at step 0 when asked |
| TimeStepping.ShortRunsAbort | cued/main.py:196-198 | every run with 0 < Nt < 20 aborts at its first step, whatever `user_out` is |
| TimeStepping.ProgressDueAgrees | cued/main.py:198 | for Nt >= 20 the corrected guard agrees with the written one |
| TimeStepping.SolutionOf | cued/main.py:340 | `y[:-1]`: the state without its last slot |
| TimeStepping.RecordFields | cued/main.py:343-347 | the time axis and field arrays keep their lengths |
| TimeStepping.Sample | cued/main.py:334-362 | the container keeps its shape and the rk4 state vector is unchanged |
| TimeStepping.Accumulate | cued/main.py:377-392 | the container keeps its shape |
| TimeStepping.Report | cued/main.py:198-200 | the progress line of step ti is recorded exactly when the corrected guard is due, and nothing else changes |
| TimeStepping.Advance | cued/main.py:206-213 | rk4 never fails and leaves the integrator alone; bdf/adams leave the container alone |
| TimeStepping.Step | cued/main.py:196-216 | one iteration keeps the shape; with bdf/adams it integrates to `solver.t + dt` and takes the flag from `successful()` |
| TimeStepping.RunPath | cued/main.py:196-216 | the time loop keeps the container's shape and the field slot |
| TimeStepping.StartPath | cued/main.py:181-189 | the state is the initial condition with a zero A-field slot appended, handed to the integrator (bdf/adams) or stored in `solution_y_vec` (rk4) |
| TimeStepping.PathEnd | cued/main.py:166-216 | one path keeps the container's shape |
| TimeStepping.RunPaths | cued/main.py:166-216 | the path loop keeps the container's shape |
| TimeStepping.SameAtTrans | cued/main.py:196-216 | agreement at one time index is transitive |
| TimeStepping.SampleTouchesOnlyItsIndex | cued/main.py:334-362 | sampling step ti changes no other time index |
| TimeStepping.AccumulateTouchesOnlyItsIndex | cued/main.py:377-392 | accumulating at step ti changes no other time index |
| TimeStepping.StepTouchesOnlyItsIndex | cued/main.py:196-216 | one iteration writes only entry ti of the time-indexed arrays |
| TimeStepping.RunPathTouchesOnlyItsSteps | cued/main.py:196-216 | the loop from ti writes only the entries of the steps it takes |
| TimeStepping.AdaptiveStopsAfterFailure | cued/main.py:196-209 | with bdf/adams, if the integrator succeeds for j steps and then fails, the loop takes exactly j + 1 samples |
| TimeStepping.StepAddsExactCurrent | cued/main.py:379-382 | an iteration adds the exact current of `y[:-1]` at the E and A of step ti |
| TimeStepping.StepsBound | cued/main.py:196 | the loop takes at most Nt - ti steps |
| TimeStepping.StepRecordsTime | cued/main.py:343-358 | on the first local path, entry ti holds the sample time and E at that time |
| TimeStepping.RunPathHead | cued/main.py:196-216 | the loop from ti is one iteration followed by the loop from ti + 1 |
| TimeStepping.RunPathTo | cued/main.py:196-216 | the loop stopped before step `stop` keeps the container's shape and the field slot |
| TimeStepping.RunPathToHead | cued/main.py:196-216 | the loop from ti, whole or stopped, is one iteration followed by the loop from ti + 1 |
| TimeStepping.RunPathAddsExactCurrent | cued/main.py:196-216 | every step k the loop takes adds to entry k of `j_E_dir` and `j_ortho` exactly once, the exact current of the state in which iteration k begins, at the E and A of step k |
| TimeStepping.FirstStepAddsExactCurrent | cued/main.py:379-382 | the first step's current survives the rest of the loop unchanged |
| TimeStepping.LaterStepAddsExactCurrent | cued/main.py:196-216 | a later step's current is what the loop from the next step adds |
| TimeStepping.LaterStepHead | cued/main.py:196-216 | an iteration before step k leaves entry k alone and leaves one sample fewer to take |
| TimeStepping.PathEndAddsExactCurrent | cued/main.py:166-216 | with rk4 a whole path adds to every one of the Nt entries exactly once, the exact current of the state after k steps, at E(k dt + t0) on the first local path and the stored E and A otherwise |
| TimeStepping.StartPathKeepsArrays | cued/main.py:181-190 | the rk4 start of a path writes only `solution_y_vec`, and the loop then takes all Nt steps |
| TimeStepping.AdvanceAsWritten | cued/main.py:206-213 | the integration step with `rk_integrate` as written; rk4 never fails and leaves the integrator alone, bdf/adams leave the container alone |
| TimeStepping.StepAsWritten | cued/main.py:196-216 | one pass as written raises ZeroDivisionError exactly when Nt // 20 == 0, and otherwise keeps the shape |
| TimeStepping.RunPathAsWritten | cued/main.py:196-216 | the loop as written keeps the shape whenever it does not raise |
| TimeStepping.RunPathAsWrittenAborts | cued/main.py:196-198 | with Nt < 20 the loop as written raises exactly when it takes a step at all, and otherwise returns its start state |
| TimeStepping.StepAsWrittenAgrees | cued/main.py:196-216 | from Nt = 20 on, a pass as written is the corrected pass whenever the step is adaptive or dt == 1 |
| TimeStepping.RunPathAsWrittenAgrees | cued/main.py:196-216 | from Nt = 20 on, the loop as written ends exactly as the corrected loop whenever the step is adaptive or dt == 1 |
| TimeStepping.FirstSampleRecordsTime | cued/main.py:343-358 | the first recorded sample survives the rest of the loop |
| TimeStepping.FirstPathRecordsTimeAxis | cued/main.py:343-358 | the first local path records at every step k it takes the integrator time after k - ti steps (k dt + t0 for rk4), and E at that time |
| TimeStepping.FirstPathRecordsLater | cued/main.py:343-358 | the same for the steps after the first one |
| TimeStepping.SampleTimeAfterStep | cued/main.py:345-356 | the step count and sample times seen from ti + 1 are those seen from ti, shifted by one |
| TimeStepping.StepKeepsTimeAxis | cued/main.py:343-358 | an iteration of a later path leaves the time axis and the fields alone |
| TimeStepping.StepKeepsSolutionFull | cued/main.py:361-362 | without save_full an iteration leaves the full solution store alone |
| TimeStepping.LaterPathsKeepTimeAxis | cued/main.py:336-358 | only the first local path writes the time axis and the fields |
| TimeStepping.FullSolutionOnlyWhenAsked | cued/main.py:361-362 | without save_full the full solution store is never written |
| TimeStepping.TimeContainers.constructor | cued/main.py:155 | zeroed arrays of Nt entries, n columns for `j_anom_ortho`, an empty full store |
| TimeStepping.CalculateSolutionAtTimestep | cued/main.py:334-362 | the new container is `Sample` of the old |
| TimeStepping.RecordFirstSample | cued/main.py:343-358 | entry ti of t, A and E becomes the sample time, the A-slot of the state and E(t) |
| TimeStepping.CalculateCurrents | cued/main.py:377-392 | the new container is `Accumulate` of the old |
| TimeStepping.AddExactCurrent | cued/main.py:379-382 | adds the exact current into entry ti of `j_E_dir` and `j_ortho`, nothing else |
| TimeStepping.AddSplitCurrents | cued/main.py:384-392 | adds the split currents into entry ti of their five arrays, nothing else |
| TimeStepping.TimeStep | cued/main.py:196-216 | the new container, integrator and flag are `Step` of the old |
| TimeStepping.SolvePath | cued/main.py:192-216 | the loop ends in the state `RunPath` specifies |
| TimeStepping.BeginPath | cued/main.py:181-190 | the new state is `StartPath` of the old |
| TimeStepping.RunSbe | cued/main.py:166-216 | the final container and integrator are `RunPaths` over all local paths |
| TimeStepping.PathRun | cued/main.py:166-216 | one path ends in the state `PathEnd` specifies |
| Spectral.Quotient | cued/main.py:437 | numpy division: non-finite exactly for a zero divisor; otherwise a value q with q * b == a |
| Spectral.CentredDiff | cued/main.py:425-437 | a length mismatch raises; one sample gives the scalar 0; otherwise one stencil quotient per sample |
| Spectral.DiffOfAffine | cued/main.py:425-437 | the periodic derivative of y = a x + b is a wherever the two neighbouring abscissae differ, wrap-around entries included |
| Spectral.DiffOfTwoSamples | cued/main.py:434-437 | with two samples both neighbours coincide, so every entry is non-finite |
| Spectral.Rotate | cued/main.py:445 | a rotation keeps the length |
| Spectral.FftShift | cued/main.py:445 | `fftshift` keeps the length |
| Spectral.IfftShift | cued/main.py:445 | `ifftshift` keeps the length |
| Spectral.RotateBack | cued/main.py:445 | rotating by m and then by the rest restores the array |
| Spectral.ShiftsAreRolls | cued/main.py:445 | entry k of `fftshift(x)` is x[(k - n//2) mod n]; entry k of `ifftshift(x)` is x[(k + n//2) mod n] |
| Spectral.FftShiftCentres | cued/main.py:445 | `fftshift` moves entry 0 to the centre n // 2 |
| Spectral.ShiftsAreInverse | cued/main.py:445-453 | the two shifts undo each other for every length |
| Spectral.EvenShiftsAgree | cued/main.py:445-453 | for even lengths the two shifts coincide |
| Spectral.OddShiftsDiffer | cued/main.py:445-453 | on [0, 1, 2] the two shifts give [2, 0, 1] and [1, 2, 0] |
| Spectral.RotateScale | cued/main.py:445-453 | a rotation commutes with a real scale factor |
| Spectral.IFourier | cued/main.py:448-453 | a zero dt gives the non-finite factor sqrt(2 pi)/0 |
| Spectral.Fourier | cued/main.py:440-445 | the spectrum has the data's length when the transform keeps lengths, and is zero for a zero time step |
| Spectral.FourierRoundTrip | cued/main.py:440-453 | `ifourier(dt, fourier(dt, x)) == x` whenever `ifft` undoes `fft` and dt != 0 |
| Spectral.HalfWindow | cued/main.py:480-482 | one entry per time sample |
| Spectral.MirrorSum | cued/main.py:483 | `a + a[::-1]` keeps the length |
| Spectral.Mirrored | cued/main.py:480-483 | one entry per time sample |
| Spectral.ParzenAsWritten | cued/main.py:470-486 | fails exactly on an empty axis; otherwise n entries with entry n // 2 equal to 1, and every other entry is a numpy inf/nan exactly when the half width is zero |
| Spectral.Parzen | cued/main.py:470-486 | the same error case; otherwise n entries, the centre of an odd window equal to 1, and every other entry a numpy inf/nan exactly when the half width is zero |
| Spectral.ParzenWindow | cued/main.py:475-486 | the in-place slice fills, the mirror sum and the centre assignment yield exactly `ParzenAsWritten`, including the inf/nan window of a zero half width |
| Spectral.FillQuarters | cued/main.py:480-482 | a fresh array holding `HalfWindow`: the outer cubic on the first quarter, the inner polynomial on the second, zeros elsewhere |
| Spectral.AddReverse | cued/main.py:483 | a fresh array holding `MirrorSum` of the input |
| Spectral.HalvesDoNotOverlap | cued/main.py:480-483 | at most one of an entry and its mirror image is non-zero before the sum |
| Spectral.ParzenIsSymmetric | cued/main.py:470-486 | the corrected window satisfies w[k] == w[n-1-k] for every length |
| Spectral.ParzenAsWrittenOddAgrees | cued/main.py:484 | for odd n the written window is the corrected one |
| Spectral.ParzenAsWrittenEvenAsymmetric | cued/main.py:484 | on the axis -3/2, -1/2, 1/2, 3/2 the written window is 0, 5/9, 1, 0, which is not symmetric |
| Spectral.FftLengthFits | cued/main.py:542 | for factor >= 1 the padded axis is at least as long as the data, longer by (n - 1)(factor - 1); for factor 0 it has one entry |
| Spectral.SliceBound | cued/main.py:895 | a clipped Python slice bound lies in 0..n |
| Spectral.CentredSliceFits | cued/main.py:895 | the slice `[(N-n)//2 : (N+n)//2]` has exactly n entries if and only if N >= n |
| Spectral.CentredPadding | cued/main.py:891-895 | fails exactly when the window does not match the data or N < n; otherwise N entries |
| Spectral.PaddingIsCentred | cued/main.py:893-895 | the padded buffer keeps every windowed sample in order, between zero runs whose lengths differ by at most one |
| Spectral.ToComplex | cued/main.py:896 | a real array as complex, entry by entry, same length |
| Spectral.Intensity | cued/main.py:897 | one intensity per frequency |
| Spectral.IntensityNonNegative | cued/main.py:897 | the emitted intensity is never negative, given a non-negative prefactor |
| Spectral.CurrentIntensity | cued/main.py:888-898 | fails exactly when the padding fails; otherwise an intensity and a spectrum on the frequency axis |
| Spectral.Column | cued/main.py:905 | `jt[:, i]` has one entry per time step |
| Spectral.WriteSlice | cued/main.py:905 | the buffer outside the slice is unchanged; inside it holds column * window |
| Spectral.ColumnIntensities | cued/main.py:899-907 | succeeds exactly when n is at most the column count and, for n > 0, the window has the current's length and N >= Nt; columns 0..n-1 of the result are the one-dimensional results for `jt[:, i]`, even though the buffer is reused; later columns are never written; n above the column count raises the column IndexError, after a shape error for a non-empty column |
| PostProcessing.Scaled | cued/main.py:503 | `c * a` keeps the length |
| PostProcessing.ScaledGrid | cued/main.py:516 | `c * m` keeps the number of rows |
| PostProcessing.AddColumn | cued/main.py:527 | `base + m[:, i]` keeps the length |
| PostProcessing.AddColumns | cued/main.py:526-527 | adding the n columns keeps the length |
| PostProcessing.AddColumnsAddsRowSums | cued/main.py:526-527 | adding the columns one at a time adds every row's band sum |
| PostProcessing.Broadcast | cued/main.py:510-511 | the derivative broadcast to the Nt entries of the time axis |
| PostProcessing.FScaleAll | cued/main.py:510 | scaling keeps the length |
| PostProcessing.FAddAll | cued/main.py:522-523 | the sum keeps the length |
| PostProcessing.WeightedDerivative | cued/main.py:510-511 | `diff(t, p) * kweight` has one entry per time step |
| PostProcessing.ScaleAndDeriveShape | cued/main.py:503-523 | the scalings and derivatives keep every array's shape |
| PostProcessing.ScaleAndDerive | cued/main.py:503-523 | the total currents are weighted by kweight; without split currents nothing else changes; when `1/T2` raises the dephasing and sum arrays are untouched; `j_anom_ortho_full` is untouched (the dephasing current itself: `DephasingCurrent`) |
| PostProcessing.KweightAsWritten | cued/main.py:501-528 | the state as written keeps every array's shape |
| PostProcessing.Kweighted | cued/main.py:501-528 | the intended state keeps every array's shape |
| PostProcessing.IntraPlusAnomalous | cued/main.py:525-528 | the sum array has one entry per time step |
| PostProcessing.KweightedSplitsCurrents | cued/main.py:503-528 | intended: the intraband current is the weighted current, and the sum array is that current plus the band sum of the weighted anomalous current |
| PostProcessing.IntraPlusAnomalousIsSum | cued/main.py:525-528 | from a zero `j_anom_ortho_full`, the sum array is the intraband current plus the summed anomalous current |
| PostProcessing.AsWrittenIsAliased | cued/main.py:525-528 | the written state differs from the intended one only in `j_intra_ortho`, which holds what the copy should have held |
| PostProcessing.AliasAddsAnomalousToIntraband | cued/main.py:525-528 | one step, one band, weight 1: the written `j_intra_ortho` is 1 where the intraband current is 0 |
| PostProcessing.StencilOfScaled | cued/main.py:510-514 | the stencil commutes with scaling the data |
| PostProcessing.DerivativeOfWeightedPolarisation | cued/main.py:510-514 | differentiating before weighting gives the derivative of the weighted polarisation |
| PostProcessing.DephasingCurrent | cued/main.py:518-520 | for T2 != 0, the dephasing current times T2 is the weighted polarisation |
| PostProcessing.ScaleInPlace | cued/main.py:503 | the array becomes `Scaled(c, old contents)` |
| PostProcessing.ScaleGridInPlace | cued/main.py:516 | the two-dimensional array becomes `ScaledGrid(c, old rows)` |
| PostProcessing.AddColumnInPlace | cued/main.py:527 | the array becomes `AddColumn(old contents, m, i)` |
| PostProcessing.AddColumnsToBoth | cued/main.py:526-528 | on two distinct arrays, each becomes `AddColumns` of its old contents over all n columns |
| PostProcessing.Copy | cued/main.py:525 | a fresh array with the same contents |
| PostProcessing.KweightContainers.constructor | cued/main.py:155 | distinct zero-filled arrays of Nt entries (Nt x n for `j_anom_ortho`), nothing derived yet, no sum array |
| PostProcessing.KweightContainers.ScaleTotals | cued/main.py:503-504 | scales the two total currents in place |
| PostProcessing.KweightContainers.ScaleSplit | cued/main.py:507-516 | scales the split currents, the polarisations and the anomalous current, and sets the weighted derivatives; the other fields and the array identities are unchanged |
| PostProcessing.KweightContainers.DephasingAndSums | cued/main.py:518-523 | sets the dephasing currents `P / T2` and the intraband-plus-derivative sums; the rest is unchanged |
| PostProcessing.KweightContainers.ScaleAndDeriveInPlace | cued/main.py:503-523 | the state is `ScaleAndDerive` of the old; false exactly when `1/T2` raises |
| PostProcessing.KweightContainers.UpdateCurrentsWithKweightAsWritten | cued/main.py:501-528 | raises exactly when `1/T2` does; the state is `KweightAsWritten` of the old, and the sum array becomes the `j_intra_ortho` array itself |
| PostProcessing.KweightContainers.UpdateCurrentsWithKweight | cued/main.py:501-528 | raises exactly when `1/T2` does; the state is `Kweighted` of the old, and the sum array is a fresh array holding `IntraPlusAnomalous` |
| TwoBandSolver.Kernel | sbe/solver/solver.py:398-411 | the derivative has the state's length |
| TwoBandSolver.KernelAt | sbe/solver/solver.py:375-409 | entry 4k + c is component c of point k |
| TwoBandSolver.KernelStructure | sbe/solver/solver.py:406-411 | p_cv is the conjugate of p_vc at every point, and the last entry is -E(t) |
| TwoBandSolver.ComponentAtRest | sbe/solver/solver.py:400-409 | without field or gradient terms, a point at its initial occupations with no coherence does not move |
| TwoBandSolver.FieldFreeRest | sbe/solver/solver.py:398-411 | without field or gradient terms, an initial state with no coherences is a rest point |
| TwoBandSolver.EntryAtRest | sbe/solver/solver.py:398-411 | each entry of that derivative is zero |
| TwoBandSolver.Neighbours | sbe/solver/solver.py:374-386 | the periodic neighbour offsets lie inside the state |
| TwoBandSolver.NeighboursAgree | sbe/solver/solver.py:374-386 | from two points on, the written offsets are the periodic ones |
| TwoBandSolver.NeighboursAsWritten | sbe/solver/solver.py:377-382 | both written offsets start a four-entry point block, and from two points on that block lies inside the state |
| TwoBandSolver.SinglePointNeighbourPastEnd | sbe/solver/solver.py:377-379 | with one point, the written next offset is 4, the A-field slot, and its p_vc neighbour lies past the state; the periodic offsets are both 0 |
| TwoBandSolver.LengthGradients | sbe/solver/solver.py:371-408 | one gradient term per point |
| TwoBandSolver.Zip | sbe/solver/solver.py:388-396 | one point record per point |
| TwoBandSolver.WriteBlock | sbe/solver/solver.py:398-408 | writes the four entries of point k, keeps the earlier entries |
| TwoBandSolver.FillKernel | sbe/solver/solver.py:375-411 | the loop fills the buffer with exactly `Kernel` |
| TwoBandSolver.LengthRhs | sbe/solver/solver.py:361-412 | raises ZeroDivisionError exactly for dk == 0, as Python's division does; otherwise a derivative of the state's length, built with the periodic neighbours |
| TwoBandSolver.LengthGradientsVanish | sbe/solver/solver.py:371-408 | without a field the gradient terms vanish |
| TwoBandSolver.FLength | sbe/solver/solver.py:361-412 | the loop computes exactly `LengthRhs` |
| TwoBandSolver.ShiftedPath | sbe/solver/solver.py:423-443 | one shifted point record per path point |
| TwoBandSolver.VelocityRhs | sbe/solver/solver.py:415-480 | a derivative of the state's length |
| TwoBandSolver.VelocityAtZeroShift | sbe/solver/solver.py:421-427 | with a zero A slot the velocity gauge evaluates the bands on the path itself |
| TwoBandSolver.FVelocity | sbe/solver/solver.py:415-480 | the loop computes exactly `VelocityRhs` |
| TwoBandSolver.MakeFnumba | sbe/solver/solver.py:482-490 | succeeds exactly for 'length' or 'velocity', choosing the matching kernel; anything else raises |
| TwoBandSolver.Rhs | sbe/solver/solver.py:493-496 | the wrapper applies the chosen kernel |
| TwoBandSolver.SbeInitialCondition | sbe/solver/solver.py:499-513 | 4 entries per point |
| TwoBandSolver.SbeInitialLayout | sbe/solver/solver.py:499-513 | point k starts with f_v = 1 and no coherences; at zero temperature f_c = 1 if and only if e_c is strictly below the Fermi energy, else 0 |
| TwoBandSolver.StartVector | sbe/solver/solver.py:185-186 | 4 Nk + 1 entries |
| TwoBandSolver.StartVectorAtRest | sbe/solver/solver.py:185-186 | the start vector has no coherences, so without a field both kernels leave it at rest |
| TwoBandSolver.NpGradient | sbe/solver/solver.py:323-324 | one entry per sample |
| TwoBandSolver.GradientDiff | sbe/solver/solver.py:314-325 | a length mismatch raises; an empty array raises; one sample gives the scalar 0; otherwise one entry per sample |
| TwoBandSolver.GradientDiffInterior | sbe/solver/solver.py:323-325 | inside the axis it equals the periodic centred difference of the cued `diff` |
| TwoBandSolver.GradientDiffEnds | sbe/solver/solver.py:323-325 | the end points use one-sided differences |
| TwoBandSolver.GradientDiffOfAffine | sbe/solver/solver.py:314-325 | exact on affine data at every point, the ends included, where the stencil's abscissae differ |
| SbeDriver.SaveSample | sbe/solver/solver.py:208-220 | a wrong reshape and an index past `solution` raise exactly when they apply; otherwise adds exactly key (slot, tIdx) with `y[:-1]`; the first path records t, A (the real part of the last slot of y) and E, later paths leave them alone |
| SbeDriver.LoopStaysInSlot | sbe/solver/solver.py:199-222 | the loop writes only its own slot, at output indices from tIdx on, and keeps every earlier key |
| SbeDriver.LoopKeepsEarlierSamples | sbe/solver/solver.py:199-222 | samples stored before tIdx are never overwritten |
| SbeDriver.FirstSampleIsIntegrated | sbe/solver/solver.py:204-212 | the first output of a path is the state after one step, not the start vector |
| SbeDriver.LaterPathsKeepTimeAxis | sbe/solver/solver.py:214-218 | after the first path, the loop leaves t, A and E alone |
| SbeDriver.LoopFits | sbe/solver/solver.py:199-222 | with the right state length and slot, the loop raises nothing as long as its saves fit into the output slots left |
| SbeDriver.LoopOverflows | sbe/solver/solver.py:199-222 | if the integrator never fails, more saves than output slots end in an IndexError |
| SbeDriver.SavesAtMultiples | sbe/solver/solver.py:208 | for an integer period p the float test `ti % p == 0` is the integer remainder test |
| SbeDriver.SavesSplit | sbe/solver/solver.py:208 | save counts add over adjacent step ranges |
| SbeDriver.OneSavePerPeriod | sbe/solver/solver.py:208 | each period of steps holds exactly one save |
| SbeDriver.NoSavesInside | sbe/solver/solver.py:208 | no save falls strictly inside a period |
| SbeDriver.IntegerPeriodFillsOutput | sbe/solver/solver.py:199-222 | with period p and Nt = p Nt_out, a path saves exactly Nt_out times |
| SbeDriver.IntegerPeriodRunsClean | sbe/solver/solver.py:199-222 | then a path whose integrator keeps the state length fills the slots and raises nothing |
| SbeDriver.BandAlong | sbe/solver/solver.py:181 | one energy per path point |
| SbeDriver.SlotOf | sbe/solver/solver.py:153-155 | without save_full every path uses slot 0 |
| SbeDriver.WithoutSaveFullOnlySlotZero | sbe/solver/solver.py:152-155 | without save_full only slot 0 of `solution` is ever written |
| SbeDriver.TimeAxisFromFirstPath | sbe/solver/solver.py:214-246 | after any number of paths, t, A and E are those the first path recorded |
| SbeDriver.ScaleAll | sbe/solver/solver.py:287-291 | scales every entry |
| SbeDriver.Normalised | sbe/solver/solver.py:286-291 | '2line' scales both components by dk/(4 pi); 'full' by kweight |
| SbeDriver.SbeContainers.constructor | sbe/solver/solver.py:106-130 | an empty `solution`, t, A and E, and zeroed emission arrays of Nt entries |
| SbeDriver.SolvePath | sbe/solver/solver.py:199-222 | the loop ends in the state `RunLoop` specifies, or raises its error |
| SbeDriver.RunLoop | sbe/solver/solver.py:199-222 | the loop leaves with nothing changed once the integrator has failed or Nt steps are done; only a pass it enters can raise |
| SbeDriver.PathEnd | sbe/solver/solver.py:152-246 | a path after the first keeps the time axis and both fields; no stored sample is lost, and new samples lie only in the path's own slot |
| SbeDriver.RunPaths | sbe/solver/solver.py:152-246 | no stored sample is lost; with save_full the new samples lie in the slots of the paths run |
| SbeDriver.ProcessPath | sbe/solver/solver.py:152-246 | one path ends as `PathEnd` specifies |
| SbeDriver.SbeSolver | sbe/solver/solver.py:152-291 | the path loop ends as `RunPaths` over all paths, then the emission is normalised |
| SbeDriver.RunPathsStaysFailed | sbe/solver/solver.py:152-246 | once a path has raised, the whole path loop has raised |

## Left out

- MPI itself is not modelled: `comm.Split`, `sync_and_sum` (`mpi_sum_currents`) and the barrier. `get_local_idx` is a parameter of the MPI descriptor. The model records only the colour each rank passes to `Split`.
- The scipy `ode` object with zvode (bdf/adams) is abstract: `set_initial_value`, `integrate`, `t`, `y` and `successful` are function values. The model does not capture its adaptive stepping or its error control.
- The system-dependent code is passed in: `sys.eigensystem_dipole_path`, `prepare_current_calculations` and `make_rhs_ode_2_band`/`make_rhs_ode_n_band` (cued.rhs_ode), and the observables of cued.observables. The dipole and energy functions of the two-band solver are passed in too. cued.rhs_ode, cued.observables and cued.utility are not part of this model.
- `fft`, `ifft` and `fftfreq` are abstract. The round trip assumes only that `ifft` undoes `fft` and commutes with real scalars.
- The transcendental functions are parameters. `np.exp` is a function assumed positive; pi and sqrt(3) are numbers; `E_dir` is a given vector, not built from cos/sin of the angle. The window functions `gaussian` and `hann` are outside the model.
- Floating point is not modelled. Arithmetic is exact over the reals, and numpy's inf/nan appear only as `NonFinite` where a zero divisor produces them.
- TimeStepping.CalculateSolutionAtTimestep: the reshape to (Nk1, n, n) is not checked; the flat solution is stored as it is.
- `store_density_matrix_for_pdf` (save_latex_pdf / save_dm_t) is left out. It is only output for reports.
- Progress printing, timing, the parameter and solution files, `write_current_emission` and the LaTeX output are I/O and are left out. Only the writer test of `write_current_emission_mpi` is modelled.
- The sheet-current sums (cued/main.py:530-534) and the three-dimensional branch of `fourier_current_intensity` (cued/main.py:909-918) are not modelled. They are used only for `n_sheets > 1`.
- `calculate_fourier` is modelled only at the padded length (cued/main.py:542) and the per-array calls of `fourier_current_intensity`. The window selection and the frequency axis are not modelled.
- In `sbe_solver` the Kira-Koch branch (`save_approx`) and the FFT and intensities after the normalisation (sbe/solver/solver.py:256-281, 293-303) are not modelled. The emission observable `emission_exact_path` is a function value.
- `SbeDriver.Normalised` models only the '2line' and 'full' zone types. Any other `BZ_type` leaves the emission unscaled in the source.
- The output period `dt_out` of the two-band solver is a real number, and the save test `ti % dt_out == 0` is taken in the real sense. The lemmas about the number of saves assume an integer period.
- KMesh.Fold: the 'M' reflection loop carries a fuel bound, because the source `while` loop has no bound. The model reports `NotFolded` when the fuel runs out, and that case cannot be excluded without analysing the lattice vectors.
- KMesh.Mesh and KMesh.HexMesh build each path and then concatenate the paths into the mesh. The source appends each point to the mesh and to its path in the same loop; the lists that result are the same.
- The rectangle mesh `rect_mesh` and the other branches of `make_BZ` before line 270 are not part of this model.
- TimeStepping.Report: uses the corrected progress guard `max(1, Nt // 20)` checked after `user_out`, which never raises (see Findings). The guard as written is `TimeStepping.ProgressDueAsWritten`, used by `StepAsWritten`.
- TimeStepping.Advance: takes the classical rk4 step, with dt in its stage states (see Findings). The step as written is `TimeStepping.AdvanceAsWritten`; `StepAsWrittenAgrees` says that the two agree when dt == 1.
- TimeStepping.Step: runs the corrected time loop: the progress guard `max(1, Nt // 20)` and the classical rk4 step with dt in its stage states (see Findings). The loop as written is `TimeStepping.RunPathAsWritten`; `RunPathAsWrittenAborts` and `RunPathAsWrittenAgrees` say where the two differ.
- TimeStepping.RunPath: runs the corrected time loop: the progress guard `max(1, Nt // 20)` and the classical rk4 step with dt in its stage states (see Findings). The loop as written is `TimeStepping.RunPathAsWritten`; `RunPathAsWrittenAborts` and `RunPathAsWrittenAgrees` say where the two differ.
- TimeStepping.PathEnd: runs the corrected time loop: the progress guard `max(1, Nt // 20)` and the classical rk4 step with dt in its stage states (see Findings). The loop as written is `TimeStepping.RunPathAsWritten`; `RunPathAsWrittenAborts` and `RunPathAsWrittenAgrees` say where the two differ.
- TimeStepping.RunPaths: runs the corrected time loop: the progress guard `max(1, Nt // 20)` and the classical rk4 step with dt in its stage states (see Findings). The loop as written is `TimeStepping.RunPathAsWritten`; `RunPathAsWrittenAborts` and `RunPathAsWrittenAgrees` say where the two differ.
- TimeStepping.TimeStep: runs the corrected time loop: the progress guard `max(1, Nt // 20)` and the classical rk4 step with dt in its stage states (see Findings). The loop as written is `TimeStepping.RunPathAsWritten`; `RunPathAsWrittenAborts` and `RunPathAsWrittenAgrees` say where the two differ.
- TimeStepping.SolvePath: runs the corrected time loop: the progress guard `max(1, Nt // 20)` and the classical rk4 step with dt in its stage states (see Findings). The loop as written is `TimeStepping.RunPathAsWritten`; `RunPathAsWrittenAborts` and `RunPathAsWrittenAgrees` say where the two differ.
- TimeStepping.RunSbe: runs the corrected time loop: the progress guard `max(1, Nt // 20)` and the classical rk4 step with dt in its stage states (see Findings). The loop as written is `TimeStepping.RunPathAsWritten`; `RunPathAsWrittenAborts` and `RunPathAsWrittenAgrees` say where the two differ.
- TimeStepping.PathRun: runs the corrected time loop: the progress guard `max(1, Nt // 20)` and the classical rk4 step with dt in its stage states (see Findings). The loop as written is `TimeStepping.RunPathAsWritten`; `RunPathAsWrittenAborts` and `RunPathAsWrittenAgrees` say where the two differ.
- TwoBandSolver.LengthGradients: uses the periodic neighbours `4*((k+1) mod Nk)` and `4*((k-1) mod Nk)`. They are the written offsets from two points on (`NeighboursAgree`). For Nk = 1 the source reads `y[5]` and `y[7]` past the 5-entry state (see Findings): an undefined read under numba's default, an IndexError with bounds checking. This member returns a defined derivative there instead.
- TwoBandSolver.LengthRhs: uses the periodic neighbours `4*((k+1) mod Nk)` and `4*((k-1) mod Nk)`. They are the written offsets from two points on (`NeighboursAgree`). For Nk = 1 the source reads `y[5]` and `y[7]` past the 5-entry state (see Findings): an undefined read under numba's default, an IndexError with bounds checking. This member returns a defined derivative there instead.
- TwoBandSolver.FLength: uses the periodic neighbours `4*((k+1) mod Nk)` and `4*((k-1) mod Nk)`. They are the written offsets from two points on (`NeighboursAgree`). For Nk = 1 the source reads `y[5]` and `y[7]` past the 5-entry state (see Findings): an undefined read under numba's default, an IndexError with bounds checking. This member returns a defined derivative there instead.
- TimeStepping.TimeContainers.constructor: the class `TimeContainers` is defined in cued.utility, which is not part of this model. The arrays start at zero, which the `+=` of `calculate_currents` presupposes.
- PostProcessing.KweightContainers.constructor: the class `TimeContainers` is defined in cued.utility, which is not part of this model. The arrays start at zero, which the `+=` of `calculate_currents` presupposes.
- Spectral.CentredPadding: needs a window of the current's length and N >= Nt. numpy broadcasts a one-entry window against a current of any length (jt = [1, 2, 3], window = [2], N = 3 gives [2, 4, 6]), and it stores a one-sample product into the empty slice when N = 0; the model reports both as `ShapeMismatch`. Every caller, `calculate_fourier` (cued/main.py:545-599), passes a window built on the time axis, which has the current's length, so no run reaches these cases.
- Spectral.CurrentIntensity: fails exactly when `CentredPadding` does. numpy broadcasts a one-entry window against a current of any length (jt = [1, 2, 3], window = [2], N = 3 gives [2, 4, 6]), and it stores a one-sample product into the empty slice when N = 0; the model reports both as `ShapeMismatch`. Every caller, `calculate_fourier` (cued/main.py:545-599), passes a window built on the time axis, which has the current's length, so no run reaches these cases.
- Spectral.ColumnIntensities: fails with `ShapeMismatch` for any window length other than the current's and for N < Nt. numpy broadcasts a one-entry window against a current of any length (jt = [1, 2, 3], window = [2], N = 3 gives [2, 4, 6]), and it stores a one-sample product into the empty slice when N = 0; the model reports both as `ShapeMismatch`. Every caller, `calculate_fourier` (cued/main.py:545-599), passes a window built on the time axis, which has the current's length, so no run reaches these cases.

## Findings

| source | as written | input that shows it | evidently intended | confidence | as-written member | corrected member |
|---|---|---|---|---|---|---|
| cued/main.py:397-399 | the Runge-Kutta stage states are `y + 0.5*k1`, `y + 0.5*k2`, `y + k3`, without the factor dt | y' = y, y = 1, dt = 1/2: one step gives 89/48 ≈ 1.854 instead of 211/128 ≈ 1.648 (exp(1/2) ≈ 1.6487) | stage states `y + 0.5*dt*k1`, `y + 0.5*dt*k2`, `y + dt*k3`, the classical fourth-order step | not executed | RungeKutta.AsWrittenOvershoots | RungeKutta.ClassicalStepIsTaylor |
| cued/main.py:198 | `ti % (P.Nt//20)` is evaluated before `P.user_out` | Nt = 10: `Nt//20 == 0`, so the first step raises ZeroDivisionError even with `user_out` false | report every `max(1, Nt//20)` steps, and only when `user_out` is set | not executed | TimeStepping.ShortRunsAbort | TimeStepping.ProgressDueAgrees |
| cued/main.py:484 | `parzen[n_t//2] = 1.0` for every length | n = 4, t = -3/2, -1/2, 1/2, 3/2: the window is 0, 5/9, 1, 0, which is not symmetric | set the centre only for odd lengths, keeping the window symmetric | not executed | Spectral.ParzenAsWrittenEvenAsymmetric | Spectral.ParzenIsSymmetric |
| cued/main.py:525-528 | `T.j_intra_plus_anom_ortho = T.j_intra_ortho` binds the same array, so the band sum is added to `j_intra_ortho` too | Nt = 1, n = 1, kweight = 1, intraband current 0, anomalous current 1: `j_intra_ortho` ends as 1 | `j_intra_plus_anom_ortho` starts as a copy, and `j_intra_ortho` stays the intraband current | not executed | PostProcessing.AliasAddsAnomalousToIntraband | PostProcessing.KweightedSplitsCurrents |
| sbe/solver/solver.py:377-382 | the first point takes neighbour `4*(k+1)` before the last-point case is checked | Nk = 1: m = 4 is the A-field slot, and `y[m+1] = y[5]` lies past the 5-entry state | periodic neighbours `4*((k+1) mod Nk)` and `4*((k-1) mod Nk)`, both 0 for one point | not executed | TwoBandSolver.SinglePointNeighbourPastEnd | TwoBandSolver.NeighboursAgree |
