/** The work-partition planner of the cued driver: which parameter
    combinations and which k-paths a process of an MPI group of `size`
    processes takes on, and which sub-group it reduces its observables in
    (cued/main.py `sbe_solver`, `make_subcommunicators`,
    `write_current_emission_mpi`).  `Mpi.get_local_idx` lives outside the
    modelled code and is a function value of the `MpiHelpers` object. */
module Partition {
  import opened Outcomes
  import Arith

  /** `list(range(c))[start::step]`: start, start + step, ... below c. */
  function Stride(start: nat, step: nat, c: nat): seq<nat>
    requires step >= 1
    decreases c - start
  {
    if start >= c then [] else [start] + Stride(start + step, step, c)
  }

  /** `range(n)` / `np.arange(n)`. */
  function Range(n: nat): (r: seq<int>)
    ensures |r| == n && forall k :: 0 <= k < n ==> r[k] == k
  {
    seq(n, k => k)
  }

  ghost predicate StrictlyIncreasing(s: seq<int>)
  {
    forall i, j :: 0 <= i < j < |s| ==> s[i] < s[j]
  }

  /** The members of a stride are exactly the numbers below c that are
      congruent to its start. */
  lemma {:induction false} StrideMembers(start: nat, step: nat, c: nat, x: int)
    requires step >= 1
    ensures x in Stride(start, step, c) <==> start <= x < c && x % step == start % step
    decreases c - start
  {
    if start < c {
      StrideMembers(start + step, step, c, x);
      Arith.ModStep(start, step);
      if start < x < c && x % step == start % step {
        // x - start is a positive multiple of step, hence at least step
        var d := x / step - start / step;
        assert x == step * (x / step) + x % step;
        assert start == step * (start / step) + start % step;
        assert x - start == step * d;
        if d <= 0 {
          Arith.MulMono(d, 0, step);
          assert false;
        }
        Arith.MulAtLeast(step, d);
      }
    }
  }

  lemma {:induction false} StrideIncreasing(start: nat, step: nat, c: nat)
    requires step >= 1
    ensures StrictlyIncreasing(Stride(start, step, c))
    ensures forall k :: 0 <= k < |Stride(start, step, c)| ==> Stride(start, step, c)[k] >= start
    decreases c - start
  {
    if start < c {
      StrideIncreasing(start + step, step, c);
    }
  }

  /** With c a multiple of step, every stride that starts in [0, step)
      has c / step entries. */
  lemma {:induction false} StrideLength(first: nat, step: nat, k: nat, q: nat)
    requires step >= 1 && first < step && k <= q
    ensures |Stride(first + k * step, step, q * step)| == q - k
    decreases q - k
  {
    if k < q {
      Arith.MulMono(k + 1, q, step);
      assert first + k * step < q * step;
      assert first + k * step + step == first + (k + 1) * step;
      StrideLength(first, step, k + 1, q);
    }
  }

  /** ncpu_list of the failure branch, built for i = 2, ..., below - 1: at
      most one entry for each i, every one at least two groups of Nk2. */
  function CandidatesBelow(c: nat, nk2: nat, below: nat): (r: seq<int>)
    ensures |r| <= below
    ensures forall k :: 0 <= k < |r| ==> r[k] >= 2 * nk2
    decreases below
  {
    if below <= 2 then []
    else CandidatesBelow(c, nk2, below - 1)
         + (if c % (below - 1) == 0 then [(below - 1) * nk2] else [])
  }

  /** The candidate group sizes are exactly the multiples i * nk2 with
      2 <= i < below and c % i == 0, in ascending order. */
  lemma {:induction false} CandidatesBelowMembers(c: nat, nk2: nat, below: nat)
    requires nk2 >= 1
    ensures StrictlyIncreasing(CandidatesBelow(c, nk2, below))
    ensures forall x :: x in CandidatesBelow(c, nk2, below) <==>
              x % nk2 == 0 && 2 <= x / nk2 < below && c % (x / nk2) == 0
    ensures forall k :: 0 <= k < |CandidatesBelow(c, nk2, below)| ==>
              CandidatesBelow(c, nk2, below)[k] < below * nk2
    decreases below
  {
    if below > 2 {
      var prev := CandidatesBelow(c, nk2, below - 1);
      CandidatesBelowMembers(c, nk2, below - 1);
      var t := (below - 1) * nk2;
      Arith.NextMultiple(nk2, below - 1);
      assert CandidatesBelow(c, nk2, below) == prev + (if c % (below - 1) == 0 then [t] else []);
      forall x
        ensures x in CandidatesBelow(c, nk2, below) <==>
                  x % nk2 == 0 && 2 <= x / nk2 < below && c % (x / nk2) == 0
      {
        Arith.MultipleIff(x, nk2, below - 1);
      }
    }
  }

  /** The four outcomes of the decision at cued/main.py:47-77.  The line-68
      condition parses as `C >= Nk2 or (path_list and not parallelize_over_points)`.
      In the inner test `C % (size / Nk2)` Python divides in floating point,
      but `size % Nk2 == 0` has been established first, so the quotient is exact.
      With Nk2 == 0 that first remainder raises ZeroDivisionError. */
  datatype Branch = CombinedBranch | ExitBranch | ParameterBranch | PathBranch | ZeroPathsBranch

  /** The first guard decides between the two MPI-subgroup branches and the
      distribution branches; combined mode is chosen exactly when that guard
      and its three divisibility conditions hold. */
  function SelectBranch(size: nat, c: nat, nk2: nat, pathList: bool, overPoints: bool): (r: Branch)
    ensures r in {CombinedBranch, ExitBranch, ZeroPathsBranch} <==> size > nk2 && size > c && !overPoints
    ensures r == ZeroPathsBranch <==> nk2 == 0 && size > c && size > 0 && !overPoints
    ensures r == CombinedBranch <==> size > nk2 && size > c && !overPoints && nk2 >= 1 &&
                                     size % nk2 == 0 && c % (size / nk2) == 0 && size <= c * nk2
    ensures r == ParameterBranch ==> c >= nk2 || (pathList && !overPoints)
    ensures r == PathBranch ==> c < nk2 && (!pathList || overPoints)
  {
    if size > nk2 && size > c && !overPoints then
      if nk2 == 0 then ZeroPathsBranch
      else if size % nk2 == 0 && c % (size / nk2) == 0 && size <= c * nk2 then CombinedBranch
      else ExitBranch
    else if c >= nk2 || (pathList && !overPoints) then ParameterBranch
    else PathBranch
  }

  /** What `sbe_solver` stores on Mpi and P.  Attributes a branch leaves
      unset are `None`. */
  datatype Assignment = Assignment(
    combined: bool, pathParallel: bool,
    paramsSets: Option<nat>, color: Option<nat>, mod: Option<nat>,
    localParams: seq<int>)

  /** The run stops with the candidate sizes, runs with an assignment, or
      raises ZeroDivisionError. */
  datatype Plan = Exit(ncpuList: seq<int>) | Run(assignment: Assignment) | ZeroDivisionError

  /** The attributes set in combined mode (cued/main.py:51-56): `size / Nk2`
      sub-groups, colour `rank // Nk2`, path `rank % Nk2`, and every
      `params_sets`-th combination from the colour on. */
  function CombinedAssignment(size: nat, rank: nat, c: nat, nk2: nat): Assignment
    requires 1 <= nk2 < size
  {
    Arith.DivAtLeastOne(size, nk2);
    var sets := size / nk2;
    Assignment(true, true, Some(sets), Some(rank / nk2), Some(rank % nk2), Stride(rank / nk2, sets, c))
  }

  /** The plan of the chosen branch: only combined mode sets a path index
      and a colour; `Mpi.mod` is None otherwise; a run without path
      parallelism takes `get_local_idx(C)` of the combinations. */
  function PlanFor(size: nat, rank: nat, c: nat, nk2: nat, pathList: bool, overPoints: bool,
                   localIdx: nat -> seq<int>): (r: Plan)
    ensures r.ZeroDivisionError? <==> SelectBranch(size, c, nk2, pathList, overPoints) == ZeroPathsBranch
    ensures r.Exit? <==> SelectBranch(size, c, nk2, pathList, overPoints) == ExitBranch
    ensures r.Run? && r.assignment.combined ==> r.assignment.pathParallel && r.assignment.mod.Some? && r.assignment.color.Some?
    ensures r.Run? && !r.assignment.combined ==> r.assignment.mod == None && r.assignment.color == None
    ensures r.Run? && !r.assignment.pathParallel ==> r.assignment.localParams == localIdx(c)
  {
    match SelectBranch(size, c, nk2, pathList, overPoints)
    case ZeroPathsBranch => ZeroDivisionError
    case CombinedBranch => Run(CombinedAssignment(size, rank, c, nk2))
    case ExitBranch => Exit(CandidatesBelow(c, nk2, c + 1))
    case ParameterBranch => Run(Assignment(false, false, None, None, None, localIdx(c)))
    case PathBranch => Run(Assignment(false, true, None, None, None, Range(c)))
  }

  /** What `make_subcommunicators` chooses: the local path list and the
      colour passed to `comm.Split`. */
  datatype Subcomm = Subcomm(localNk2IdxList: seq<int>, splitColor: int)

  /** In combined mode a rank runs its one path in the sub-group of its
      colour; otherwise all ranks share one sub-group (colour 0), except
      without any distribution of paths, where each rank is its own group and
      runs every path. */
  function SubcommFor(a: Assignment, overPoints: bool, rank: nat, nk1: nat, nk2: nat,
                      localIdx: nat -> seq<int>): (r: Subcomm)
    requires a.combined ==> a.mod.Some? && a.color.Some?
    ensures a.combined ==> |r.localNk2IdxList| == 1 && r.localNk2IdxList[0] == a.mod.value && r.splitColor == a.color.value
    ensures !a.combined && (overPoints || a.pathParallel) ==> r.splitColor == 0
    ensures !a.combined && !overPoints && !a.pathParallel ==> r.splitColor == rank && r.localNk2IdxList == Range(nk2)
  {
    if a.combined then Subcomm([a.mod.value], a.color.value)
    else if overPoints then Subcomm(localIdx(nk2 * nk1), 0)
    else if a.pathParallel then Subcomm(localIdx(nk2), 0)
    else Subcomm(Range(nk2), rank)
  }

  /** The writer test of `write_current_emission_mpi`; `None == 0` is false in Python. */
  function WritesOutput(rank: nat, mod: Option<nat>, pathParallel: bool): (r: bool)
    ensures rank == 0 || !pathParallel ==> r
    ensures rank != 0 && pathParallel ==> (r <==> mod.Some? && mod.value == 0)
  {
    rank == 0 || mod == Some(0) || !pathParallel
  }

  // ---------------------------------------------------------------------
  // Properties of the plan

  /** The shape of combined mode: at least two sub-groups of Nk2 ranks, each
      with the same number of combinations. */
  lemma CombinedShape(size: nat, c: nat, nk2: nat)
    requires nk2 >= 1 && size > nk2
    requires size % nk2 == 0 && c % (size / nk2) == 0
    ensures size / nk2 >= 2 && size == (size / nk2) * nk2
    ensures c == (c / (size / nk2)) * (size / nk2)
  {
    var sets := size / nk2;
    Arith.ExactQuotient(size, nk2);
    if sets < 2 {
      Arith.MulMono(sets, 1, nk2);
    }
    Arith.ExactQuotient(c, sets);
  }

  /** A stride that starts below its step, over q whole periods of it. */
  lemma StrideOfResidue(first: nat, step: nat, q: nat)
    requires 1 <= step && first < step
    ensures |Stride(first, step, q * step)| == q
    ensures StrictlyIncreasing(Stride(first, step, q * step))
    ensures forall x :: x in Stride(first, step, q * step) <==> 0 <= x < q * step && x % step == first
  {
    var c := q * step;
    StrideLength(first, step, 0, q);
    assert first + 0 * step == first;
    StrideIncreasing(first, step, c);
    forall x ensures x in Stride(first, step, c) <==> 0 <= x < c && x % step == first {
      ResidueMembers(first, step, c, x);
    }
  }

  /** The members of a stride that starts below its step are the numbers
      below c with that residue. */
  lemma ResidueMembers(first: nat, step: nat, c: nat, x: int)
    requires 1 <= step && first < step
    ensures x in Stride(first, step, c) <==> 0 <= x < c && x % step == first
  {
    StrideMembers(first, step, c, x);
    Arith.DivModUnique(first, step, 0, first);
  }

  /** Combined mode: `size / Nk2` sub-groups; a rank's colour and path are
      `rank // Nk2` and `rank % Nk2`; its combinations are those congruent
      to its colour, `C / params_sets` of them, in ascending order. */
  lemma CombinedModeLists(size: nat, rank: nat, c: nat, nk2: nat, pathList: bool,
                          overPoints: bool, localIdx: nat -> seq<int>)
    requires nk2 >= 1 && rank < size
    requires SelectBranch(size, c, nk2, pathList, overPoints) == CombinedBranch
    ensures var sets := size / nk2;
            var plan := PlanFor(size, rank, c, nk2, pathList, overPoints, localIdx);
            && sets >= 2 && size == sets * nk2
            && plan.Run? && plan.assignment.combined && plan.assignment.pathParallel
            && plan.assignment.color == Some(rank / nk2) && rank / nk2 < sets
            && plan.assignment.mod == Some(rank % nk2)
            && |plan.assignment.localParams| == c / sets
            && StrictlyIncreasing(plan.assignment.localParams)
            && forall x :: x in plan.assignment.localParams <==> 0 <= x < c && x % sets == rank / nk2
  {
    var sets := size / nk2;
    CombinedShape(size, c, nk2);
    Arith.QuotientBound(rank, sets, nk2);
    var q := c / sets;
    assert c == q * sets;
    var color := rank / nk2;
    StrideOfResidue(color, sets, q);
    var locals := Stride(color, sets, c);
    assert |locals| == c / sets;
    assert PlanFor(size, rank, c, nk2, pathList, overPoints, localIdx)
        == Run(Assignment(true, true, Some(sets), Some(color), Some(rank % nk2), locals));
  }

  /** Combined mode covers the work exactly once: for every combination x and
      path m there is exactly one rank that runs x on path m, the rank
      (x % params_sets) * Nk2 + m. */
  lemma CombinedCoverage(size: nat, c: nat, nk2: nat, pathList: bool, overPoints: bool,
                         localIdx: nat -> seq<int>, x: nat, m: nat)
    requires nk2 >= 1 && x < c && m < nk2
    requires SelectBranch(size, c, nk2, pathList, overPoints) == CombinedBranch
    ensures (x % (size / nk2)) * nk2 + m < size
    ensures forall r :: 0 <= r < size ==>
              (var a := PlanFor(size, r, c, nk2, pathList, overPoints, localIdx).assignment;
               x in a.localParams && a.mod == Some(m) <==> r == (x % (size / nk2)) * nk2 + m)
  {
    var sets := size / nk2;
    CombinedShape(size, c, nk2);
    Arith.RowEntryBound(nk2, sets, x % sets, m);
    forall r | 0 <= r < size
      ensures var a := PlanFor(size, r, c, nk2, pathList, overPoints, localIdx).assignment;
              x in a.localParams && a.mod == Some(m) <==> r == (x % sets) * nk2 + m
    {
      CombinedModeLists(size, r, c, nk2, pathList, overPoints, localIdx);
      Arith.RowEntryIff(r, nk2, x % sets, m);
    }
  }

  /** In combined mode exactly the ranks with path index 0 write output: one
      writer per sub-group, its lowest rank. */
  lemma CombinedWriters(size: nat, rank: nat, c: nat, nk2: nat, pathList: bool,
                        overPoints: bool, localIdx: nat -> seq<int>)
    requires nk2 >= 1 && rank < size
    requires SelectBranch(size, c, nk2, pathList, overPoints) == CombinedBranch
    ensures var a := PlanFor(size, rank, c, nk2, pathList, overPoints, localIdx).assignment;
            WritesOutput(rank, a.mod, a.pathParallel) <==> rank % nk2 == 0
  {
    if rank == 0 {
      assert rank % nk2 == 0;
    }
  }

  /** The failure branch runs nothing and reports the group sizes i * Nk2
      with 2 <= i <= C and C % i == 0, ascending. */
  lemma ExitReportsCandidates(size: nat, rank: nat, c: nat, nk2: nat, pathList: bool,
                              overPoints: bool, localIdx: nat -> seq<int>)
    requires nk2 >= 1
    requires size > nk2 && size > c && !overPoints
    requires !(size % nk2 == 0 && c % (size / nk2) == 0 && size <= c * nk2)
    ensures var plan := PlanFor(size, rank, c, nk2, pathList, overPoints, localIdx);
            && plan.Exit?
            && StrictlyIncreasing(plan.ncpuList)
            && forall g :: g in plan.ncpuList <==> g % nk2 == 0 && 2 <= g / nk2 <= c && c % (g / nk2) == 0
  {
    CandidatesBelowMembers(c, nk2, c + 1);
  }

  /** Parameter-parallel branch: combinations from `get_local_idx(C)`, no path
      parallelism and every rank writes; each rank owns its own sub-group
      and all paths unless points are distributed, in which case the ranks
      share one sub-group (colour 0). */
  lemma ParameterBranchPlan(size: nat, rank: nat, c: nat, nk1: nat, nk2: nat, pathList: bool,
                            overPoints: bool, localIdx: nat -> seq<int>)
    requires SelectBranch(size, c, nk2, pathList, overPoints) == ParameterBranch
    ensures var a := PlanFor(size, rank, c, nk2, pathList, overPoints, localIdx).assignment;
            var sc := SubcommFor(a, overPoints, rank, nk1, nk2, localIdx);
            && a.localParams == localIdx(c) && !a.combined && !a.pathParallel && a.mod == None
            && WritesOutput(rank, a.mod, a.pathParallel)
            && (!overPoints ==> sc.localNk2IdxList == Range(nk2) && sc.splitColor == rank)
            && (overPoints ==> sc.localNk2IdxList == localIdx(nk2 * nk1) && sc.splitColor == 0)
  {
  }

  /** Path-parallel branch: every combination on every rank, one shared
      sub-group, and only rank 0 writes. */
  lemma PathBranchPlan(size: nat, rank: nat, c: nat, nk1: nat, nk2: nat, pathList: bool,
                       overPoints: bool, localIdx: nat -> seq<int>)
    requires SelectBranch(size, c, nk2, pathList, overPoints) == PathBranch
    ensures var a := PlanFor(size, rank, c, nk2, pathList, overPoints, localIdx).assignment;
            var sc := SubcommFor(a, overPoints, rank, nk1, nk2, localIdx);
            && a.localParams == Range(c) && a.pathParallel && !a.combined && sc.splitColor == 0
            && (WritesOutput(rank, a.mod, a.pathParallel) <==> rank == 0)
            && sc.localNk2IdxList == (if overPoints then localIdx(nk2 * nk1) else localIdx(nk2))
  {
  }

  /** Without paths the planner raises exactly when the guard at line 47
      holds, there being at least one rank; otherwise every combination
      count is at least Nk2 == 0 and the run is parameter-parallel. */
  lemma ZeroPathsPlan(size: nat, rank: nat, c: nat, pathList: bool, overPoints: bool,
                      localIdx: nat -> seq<int>)
    requires rank < size
    ensures var plan := PlanFor(size, rank, c, 0, pathList, overPoints, localIdx);
            && (plan.ZeroDivisionError? <==> size > c && !overPoints)
            && (!plan.ZeroDivisionError? ==> plan == Run(Assignment(false, false, None, None, None, localIdx(c))))
  {
  }

  /** The third conjunct of cued/main.py:48 is implied by the first two. */
  lemma InnerBoundRedundant(size: nat, c: nat, nk2: nat)
    requires nk2 >= 1 && size > nk2 && c >= 1
    requires size % nk2 == 0 && c % (size / nk2) == 0
    ensures size <= c * nk2
  {
    var sets := size / nk2;
    Arith.DivModUnique(size, nk2, sets, 0);
    Arith.DivModUnique(c, sets, c / sets, 0);
    if c / sets == 0 {
      assert false;
    }
    Arith.MulAtLeast(sets, c / sets);
    Arith.MulMono(sets, c, nk2);
  }

  /** Four ranks, Nk2 = 2, C = 8: the guard at line 47 fails (4 > 8 is false),
      so the code runs parameter-parallel, not combined. */
  lemma FourRanksEightCombinations()
    ensures SelectBranch(4, 8, 2, false, false) == ParameterBranch
  {
  }

  /** Eight ranks, Nk2 = 2, C = 3: combined mode is impossible and the only
      candidate reported is 6. */
  lemma EightRanksThreeCombinations(rank: nat, localIdx: nat -> seq<int>)
    ensures PlanFor(8, rank, 3, 2, false, false, localIdx) == Exit([6])
  {
    assert CandidatesBelow(3, 2, 4) == [6];
  }

  // ---------------------------------------------------------------------
  // The stateful objects

  /** The MPI descriptor; `getLocalIdx` is `get_local_idx` for this rank. */
  class MpiHelpers {
    const size: nat
    const rank: nat
    const getLocalIdx: nat -> seq<int>
    var paramsSets: Option<nat>
    var color: Option<nat>
    var mod: Option<nat>
    var localParamsIdxList: seq<int>
    var localNk2IdxList: seq<int>
    var splitColor: Option<int>

    constructor (size: nat, rank: nat, getLocalIdx: nat -> seq<int>)
      requires rank < size
      ensures this.size == size && this.rank == rank && this.getLocalIdx == getLocalIdx
      ensures paramsSets == None && color == None && mod == None && splitColor == None
      ensures localParamsIdxList == [] && localNk2IdxList == []
    {
      this.size := size;
      this.rank := rank;
      this.getLocalIdx := getLocalIdx;
      paramsSets, color, mod, splitColor := None, None, None, None;
      localParamsIdxList, localNk2IdxList := [], [];
    }
  }

  /** The planner's part of the parameter object P. */
  class Params {
    const numberOfCombinations: nat
    const pathList: bool
    const parallelizeOverPoints: bool
    var nk1: nat
    var nk2: nat
    var combinedParallelization: bool
    var pathParallelization: bool

    constructor (numberOfCombinations: nat, pathList: bool, parallelizeOverPoints: bool)
      ensures this.numberOfCombinations == numberOfCombinations
      ensures this.pathList == pathList && this.parallelizeOverPoints == parallelizeOverPoints
      ensures nk1 == 0 && nk2 == 0 && !combinedParallelization && !pathParallelization
    {
      this.numberOfCombinations := numberOfCombinations;
      this.pathList := pathList;
      this.parallelizeOverPoints := parallelizeOverPoints;
      nk1, nk2 := 0, 0;
      combinedParallelization, pathParallelization := false, false;
    }
  }

  /** The `ncpu_list` loop of the failure branch (cued/main.py:58-61). */
  method CandidateGroupSizes(c: nat, nk2: nat) returns (ncpuList: seq<int>)
    requires nk2 >= 1
    ensures ncpuList == CandidatesBelow(c, nk2, c + 1)
    ensures StrictlyIncreasing(ncpuList)
    ensures forall g :: g in ncpuList <==> g % nk2 == 0 && 2 <= g / nk2 <= c && c % (g / nk2) == 0
  {
    ncpuList := [];
    var i := 2;
    while i < 1 + c
      invariant 2 <= i && (i <= c + 1 || i == 2)
      invariant ncpuList == CandidatesBelow(c, nk2, i)
    {
      if c % i == 0 {
        ncpuList := ncpuList + [i * nk2];
      }
      i := i + 1;
    }
    if c < 1 {
      assert CandidatesBelow(c, nk2, c + 1) == [];
    }
    CandidatesBelowMembers(c, nk2, c + 1);
  }

  /** The planner part of `sbe_solver` (cued/main.py:41-82): sets the
      attributes of Mpi and P, or reports the candidate group sizes and
      stops the run (`system.exit()`), then calls `make_subcommunicators`. */
  method SbeSolverPartition(mpi: MpiHelpers, p: Params, nk1: nat, nk2: nat)
    returns (exited: bool, ncpuList: seq<int>, raised: bool)
    modifies mpi, p
    ensures var plan := PlanFor(mpi.size, mpi.rank, p.numberOfCombinations, nk2, p.pathList,
                                p.parallelizeOverPoints, mpi.getLocalIdx);
            && exited == plan.Exit? && raised == plan.ZeroDivisionError?
            && (!plan.Run? ==>
                  && unchanged(mpi) && !p.combinedParallelization
                  && p.pathParallelization == old(p.pathParallelization)
                  && p.nk1 == old(p.nk1) && p.nk2 == old(p.nk2))
            && (plan.Exit? ==> ncpuList == plan.ncpuList)
            && (plan.ZeroDivisionError? ==> ncpuList == [])
            && (plan.Run? ==>
                  var a := plan.assignment;
                  var sc := SubcommFor(a, p.parallelizeOverPoints, mpi.rank, nk1, nk2, mpi.getLocalIdx);
                  && ncpuList == []
                  && p.combinedParallelization == a.combined
                  && p.pathParallelization == a.pathParallel
                  && p.nk1 == nk1 && p.nk2 == nk2
                  && mpi.mod == a.mod
                  && mpi.localParamsIdxList == a.localParams
                  && (a.combined ==> mpi.paramsSets == a.paramsSets && mpi.color == a.color)
                  && (!a.combined ==> mpi.paramsSets == old(mpi.paramsSets) && mpi.color == old(mpi.color))
                  && mpi.localNk2IdxList == sc.localNk2IdxList
                  && mpi.splitColor == Some(sc.splitColor))
  {
    var c := p.numberOfCombinations;
    ncpuList := [];
    exited, raised := false, false;
    p.combinedParallelization := false;
    if mpi.size > nk2 && mpi.size > c && !p.parallelizeOverPoints {
      if nk2 == 0 {
        // `Mpi.size % params.Nk2` raises
        raised := true;
        return;
      }
      if mpi.size % nk2 == 0 && c % (mpi.size / nk2) == 0 && mpi.size <= c * nk2 {
        AssignCombined(mpi, p, nk2);
      } else {
        ncpuList := CandidateGroupSizes(c, nk2);
        exited := true;
        return;
      }
    } else if c >= nk2 || (p.pathList && !p.parallelizeOverPoints) {
      mpi.mod := None;
      mpi.localParamsIdxList := mpi.getLocalIdx(c);
      p.pathParallelization := false;
    } else {
      mpi.mod := None;
      mpi.localParamsIdxList := Range(c);
      p.pathParallelization := true;
    }
    p.nk1 := nk1;
    p.nk2 := nk2;
    MakeSubcommunicators(mpi, p);
  }

  /** The combined-mode block of the planner (cued/main.py:51-56). */
  method AssignCombined(mpi: MpiHelpers, p: Params, nk2: nat)
    requires 1 <= nk2 < mpi.size
    modifies mpi, p
    ensures var a := CombinedAssignment(mpi.size, mpi.rank, p.numberOfCombinations, nk2);
            && mpi.paramsSets == a.paramsSets && mpi.color == a.color && mpi.mod == a.mod
            && mpi.localParamsIdxList == a.localParams
            && p.combinedParallelization && p.pathParallelization
            && mpi.localNk2IdxList == old(mpi.localNk2IdxList) && mpi.splitColor == old(mpi.splitColor)
            && p.nk1 == old(p.nk1) && p.nk2 == old(p.nk2)
  {
    Arith.DivAtLeastOne(mpi.size, nk2);
    var sets := mpi.size / nk2;
    mpi.paramsSets := Some(sets);
    mpi.color := Some(mpi.rank / nk2);
    mpi.mod := Some(mpi.rank % nk2);
    mpi.localParamsIdxList := Stride(mpi.rank / nk2, sets, p.numberOfCombinations);
    p.combinedParallelization := true;
    p.pathParallelization := true;
  }

  /** `make_subcommunicators` (cued/main.py:93-110). */
  method MakeSubcommunicators(mpi: MpiHelpers, p: Params)
    requires p.combinedParallelization ==> mpi.mod.Some? && mpi.color.Some?
    modifies mpi
    ensures mpi.paramsSets == old(mpi.paramsSets) && mpi.color == old(mpi.color)
    ensures mpi.mod == old(mpi.mod) && mpi.localParamsIdxList == old(mpi.localParamsIdxList)
    ensures var sc := SubcommFor(Assignment(p.combinedParallelization, p.pathParallelization,
                                            mpi.paramsSets, mpi.color, mpi.mod, mpi.localParamsIdxList),
                                 p.parallelizeOverPoints, mpi.rank, p.nk1, p.nk2, mpi.getLocalIdx);
            mpi.localNk2IdxList == sc.localNk2IdxList && mpi.splitColor == Some(sc.splitColor)
  {
    if p.combinedParallelization {
      mpi.splitColor := Some(mpi.color.value);
      mpi.localNk2IdxList := [mpi.mod.value];
    } else if p.parallelizeOverPoints {
      mpi.localNk2IdxList := mpi.getLocalIdx(p.nk2 * p.nk1);
      mpi.splitColor := Some(0);
    } else if p.pathParallelization {
      mpi.localNk2IdxList := mpi.getLocalIdx(p.nk2);
      mpi.splitColor := Some(0);
    } else {
      mpi.localNk2IdxList := Range(p.nk2);
      mpi.splitColor := Some(mpi.rank);
    }
  }
}
